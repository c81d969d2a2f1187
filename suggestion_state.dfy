/**
 * The search bar's suggestion state as a value, and one function per event
 * that changes it: typing, focus, submit, keyboard hide, picking a
 * suggestion, the "query changed" effect with its cleanup, the debounce
 * timer firing and the lookup finishing.
 *
 * The effect cleanup (abort the request, clear the timer) is modelled with a
 * generation counter: every change of the search text starts a new
 * generation, and a timer or a completion that carries an older generation
 * is one that was cancelled, so it changes nothing. Aborting a lookup that
 * is in flight runs its AbortError path at once, before the new effect.
 */
module SuggestionState {
  import opened Wrappers
  import opened Whitespace
  import opened SuggestionLabel
  import opened Utf16

  /** Trimmed queries shorter than this are not looked up. */
  const MinQueryLength: nat := 2

  /** `query.length >= MIN_QUERY_LENGTH`, with `length` in UTF-16 code units. */
  predicate LongEnough(query: string)
    ensures |query| >= MinQueryLength ==> LongEnough(query)
    ensures !LongEnough(query) ==> |query| <= 1
  {
    Utf16Length(query) >= MinQueryLength
  }

  /** The lookup belonging to the current generation of the effect. */
  datatype Lookup =
    | Idle                       // nothing scheduled, nothing in flight
    | Scheduled(query: string)   // the debounce timer is pending
    | InFlight(query: string)    // the request was sent, no answer yet

  /** How the request ends. */
  datatype Outcome =
    | NotOk                                      // `response.ok` is false
    | Ok(results: Option<seq<GeocodingResult>>)  // decoded body; `None` when `results` is absent
    | Aborted                                    // rejected with an AbortError
    | Failed                                     // any other rejection (network, body decoding)

  datatype State = State(
    searchText: string,
    visible: bool,
    suggestions: seq<GeocodingResult>,
    loading: bool,
    generation: nat,
    lookup: Lookup)

  /** What the dropdown under the search field shows. */
  datatype Dropdown = Hidden | LoadingRow | Items(labels: seq<string>)

  /** The events the search bar reacts to. */
  datatype Event =
    | TextChanged(value: string)
    | SearchTextSet(value: string)    // `setSearchText` called from outside the bar
    | Focused
    | Submitted
    | KeyboardHidden
    | Selected(result: GeocodingResult)
    | TimerFired(generation: nat)
    | LookupFinished(generation: nat, outcome: Outcome)

  /** What holds in every reachable state: loading means a request is in
      flight; a pending lookup is for the current trimmed text, which is long
      enough; a text too short to look up shows no suggestions. */
  predicate Inv(s: State) {
    && (s.loading <==> s.lookup.InFlight?)
    && (!s.lookup.Idle? ==>
          s.lookup.query == Trim(s.searchText) && LongEnough(s.lookup.query))
    && (!LongEnough(Trim(s.searchText)) ==> s.suggestions == [])
  }

  /** The state at mount, after the effect's first run on the empty text. */
  function Init(): (s: State)
    ensures Inv(s)
    ensures s.searchText == "" && !s.visible && s.suggestions == [] && !s.loading
  {
    State("", false, [], false, 0, Idle)
  }

  /** The body of the timer callback after `await fetch`: the try, catch and
      finally blocks applied to the request's outcome. */
  function Finish(s: State, outcome: Outcome): (r: State)
    ensures !r.loading && r.lookup == Idle
    ensures outcome.NotOk? || outcome.Failed? || outcome == Ok(None) ==> r.suggestions == []
    ensures outcome.Ok? && outcome.results.Some? ==> r.suggestions == outcome.results.value
    ensures outcome.Aborted? ==> r.suggestions == s.suggestions
    ensures r.searchText == s.searchText && r.visible == s.visible && r.generation == s.generation
  {
    var suggestions :=
      match outcome
      case NotOk => []
      case Ok(results) => if results.Some? then results.value else []
      case Aborted => s.suggestions
      case Failed => [];
    s.(suggestions := suggestions, loading := false, lookup := Idle)
  }

  /** The effect cleanup: abort the request in flight (its AbortError path
      runs), clear the timer, and retire the generation. */
  function Cleanup(s: State): (r: State)
    ensures r.lookup == Idle && r.generation == s.generation + 1
    ensures r.suggestions == s.suggestions && r.searchText == s.searchText && r.visible == s.visible
    ensures r.loading == (s.loading && !s.lookup.InFlight?)
  {
    var aborted := if s.lookup.InFlight? then Finish(s, Aborted) else s;
    aborted.(lookup := Idle, generation := s.generation + 1)
  }

  /** The "query changed" effect on a fresh generation: a trimmed text shorter
      than the minimum clears the list and the loading flag; otherwise the
      debounced lookup of the trimmed text is scheduled. */
  function QueryEffect(s: State): (r: State)
    requires s.lookup == Idle
    ensures !LongEnough(Trim(s.searchText)) ==>
      r.suggestions == [] && !r.loading && r.lookup == Idle
    ensures LongEnough(Trim(s.searchText)) ==>
      r.suggestions == s.suggestions && r.loading == s.loading && r.lookup == Scheduled(Trim(s.searchText))
    ensures r.searchText == s.searchText && r.visible == s.visible && r.generation == s.generation
  {
    var query := Trim(s.searchText);
    if !LongEnough(query) then s.(suggestions := [], loading := false)
    else s.(lookup := Scheduled(query))
  }

  /** `setSearchText(value)`: React ignores a value equal to the current one;
      a new value re-runs the query effect after its cleanup. */
  function SetSearchText(s: State, value: string): (r: State)
    ensures r.searchText == value && r.visible == s.visible
    ensures value == s.searchText ==> r == s
    ensures value != s.searchText ==> r.generation == s.generation + 1
    ensures Inv(s) && value != s.searchText ==> !r.loading
    ensures value != s.searchText && !LongEnough(Trim(value)) ==>
      r.suggestions == [] && r.lookup == Idle
    ensures value != s.searchText && LongEnough(Trim(value)) ==>
      r.suggestions == s.suggestions && r.lookup == Scheduled(Trim(value))
    ensures Inv(s) ==> Inv(r)
  {
    if value == s.searchText then s
    else QueryEffect(Cleanup(s.(searchText := value)))
  }

  /** `onChangeText`: store the text; show the dropdown iff the trimmed text
      is non-empty. */
  function ChangeText(s: State, value: string): (r: State)
    ensures r.searchText == value
    ensures r.visible <==> Trim(value) != ""
    ensures r.suggestions == SetSearchText(s, value).suggestions
    ensures r.loading == SetSearchText(s, value).loading
    ensures r.lookup == SetSearchText(s, value).lookup
    ensures r.generation == SetSearchText(s, value).generation
    ensures Inv(s) ==> Inv(r)
  {
    SetSearchText(s, value).(visible := Trim(value) != "")
  }

  /** `onFocus`: show the dropdown iff the trimmed text is non-empty. */
  function Focus(s: State): (r: State)
    ensures r.visible <==> Trim(s.searchText) != ""
    ensures r.searchText == s.searchText && r.suggestions == s.suggestions && r.loading == s.loading
    ensures r.generation == s.generation && r.lookup == s.lookup
  {
    s.(visible := Trim(s.searchText) != "")
  }

  /** `onSubmitEditing` and the `keyboardDidHide` listener: hide the dropdown. */
  function Hide(s: State): (r: State)
    ensures !r.visible
    ensures r.searchText == s.searchText && r.suggestions == s.suggestions && r.loading == s.loading
    ensures r.generation == s.generation && r.lookup == s.lookup
  {
    s.(visible := false)
  }

  /** `selectSuggestion(result)`: the text becomes the result's label and the
      dropdown is hidden. */
  function Select(s: State, result: GeocodingResult): (r: State)
    ensures r.searchText == FormatSuggestionLabel(result) && !r.visible
    ensures r.(visible := s.visible) == SetSearchText(s, FormatSuggestionLabel(result))
    ensures Inv(s) ==> Inv(r)
  {
    SetSearchText(s, FormatSuggestionLabel(result)).(visible := false)
  }

  /** The debounce timer of generation `g` fires: if it is the current,
      pending one, loading starts and the request is sent. */
  function StartLookup(s: State, g: nat): (r: State)
    ensures g == s.generation && s.lookup.Scheduled? ==>
      r.loading && r.lookup == InFlight(s.lookup.query)
    ensures r.searchText == s.searchText && r.visible == s.visible
    ensures r.suggestions == s.suggestions && r.generation == s.generation
    ensures !(g == s.generation && s.lookup.Scheduled?) ==> r == s
    ensures Inv(s) ==> Inv(r)
  {
    if g == s.generation && s.lookup.Scheduled? then
      s.(loading := true, lookup := InFlight(s.lookup.query))
    else s
  }

  /** The request of generation `g` ends with `outcome`. A completion that is
      not the current request in flight changes nothing; results are only
      ever applied for the query of the current text. */
  function CompleteLookup(s: State, g: nat, outcome: Outcome): (r: State)
    ensures g == s.generation && s.lookup.InFlight? ==> r == Finish(s, outcome)
    ensures !(g == s.generation && s.lookup.InFlight?) ==> r == s
    ensures Inv(s) && r.suggestions != s.suggestions ==>
      g == s.generation && s.lookup == InFlight(Trim(s.searchText))
    ensures Inv(s) ==> Inv(r)
  {
    if g == s.generation && s.lookup.InFlight? then Finish(s, outcome) else s
  }

  /** The query a step sends to the geocoding service, if any. */
  function Request(s: State, e: Event): (q: Option<string>)
    ensures Inv(s) && q.Some? ==>
      q.value == Trim(s.searchText) && LongEnough(q.value)
    ensures !e.TimerFired? ==> q.None?
    ensures e.TimerFired? && e.generation != s.generation ==> q.None?
  {
    if e.TimerFired? && e.generation == s.generation && s.lookup.Scheduled? then
      Some(s.lookup.query)
    else None
  }

  function Step(s: State, e: Event): (r: State)
    ensures Inv(s) ==> Inv(r)
  {
    match e
    case TextChanged(value) => ChangeText(s, value)
    case SearchTextSet(value) => SetSearchText(s, value)
    case Focused => Focus(s)
    case Submitted => Hide(s)
    case KeyboardHidden => Hide(s)
    case Selected(result) => Select(s, result)
    case TimerFired(g) => StartLookup(s, g)
    case LookupFinished(g, outcome) => CompleteLookup(s, g, outcome)
  }

  function Sent(q: Option<string>): seq<string> {
    if q.Some? then [q.value] else []
  }

  /** The final state after a sequence of events, and the queries sent, in order. */
  function Run(s: State, events: seq<Event>): (State, seq<string>)
    decreases |events|
  {
    if events == [] then (s, [])
    else
      var q := Request(s, events[0]);
      var rest := Run(Step(s, events[0]), events[1..]);
      (rest.0, Sent(q) + rest.1)
  }

  /** What the dropdown shows: nothing unless visible and either loading or
      holding suggestions; the loading row while loading; otherwise one label
      per suggestion. */
  function DropdownView(s: State): (d: Dropdown)
    ensures d != Hidden <==> s.visible && (s.loading || |s.suggestions| > 0)
    ensures d == LoadingRow <==> s.visible && s.loading
    ensures d.Items? ==> |d.labels| == |s.suggestions|
    ensures d.Items? ==>
      forall i :: 0 <= i < |d.labels| ==> d.labels[i] == FormatSuggestionLabel(s.suggestions[i])
  {
    if !(s.visible && (s.loading || |s.suggestions| > 0)) then Hidden
    else if s.loading then LoadingRow
    else Items(seq(|s.suggestions|, i requires 0 <= i < |s.suggestions| => FormatSuggestionLabel(s.suggestions[i])))
  }

  /** Every reachable state satisfies the invariant. */
  lemma {:induction false} RunKeepsInv(s: State, events: seq<Event>)
    requires Inv(s)
    ensures Inv(Run(s, events).0)
    decreases |events|
  {
    if events != [] {
      RunKeepsInv(Step(s, events[0]), events[1..]);
    }
  }

  /** In a reachable state a text shorter than the minimum shows no dropdown. */
  lemma ShortQueryShowsNothing(s: State)
    requires Inv(s) && !LongEnough(Trim(s.searchText))
    ensures DropdownView(s) == Hidden
  {
  }

  /** Only timer ticks send requests: a run with no tick sends nothing,
      whatever the user types, focuses, submits or selects and however
      lookups end. */
  lemma {:induction false} NoTickSendsNothing(s: State, events: seq<Event>)
    requires forall i :: 0 <= i < |events| ==> !events[i].TimerFired?
    ensures Run(s, events).1 == []
    decreases |events|
  {
    if events != [] {
      assert forall i :: 0 <= i < |events[1..]| ==> events[1..][i] == events[i + 1];
      NoTickSendsNothing(Step(s, events[0]), events[1..]);
    }
  }

  /** A single character outside the Basic Multilingual Plane, such as an
      emoji, is two code units long, so it is looked up like any other text
      of length two. */
  lemma AstralCharacterIsLookedUp(s: State, c: char)
    requires Inv(s) && [c] != s.searchText && c >= '\U{10000}'
    ensures SetSearchText(s, [c]).lookup == Scheduled([c])
  {
    TrimUnpadded([c]);
    AstralLength(c);
  }

  /** One step of a run. */
  lemma RunCons(s: State, a: seq<Event>)
    requires a != []
    ensures Run(s, a).0 == Run(Step(s, a[0]), a[1..]).0
    ensures Run(s, a).1 == Sent(Request(s, a[0])) + Run(Step(s, a[0]), a[1..]).1
  {
  }

  /** Running two sequences of events one after the other ends where the
      second run from the end of the first ends. */
  lemma {:induction false} RunAppendState(s: State, a: seq<Event>, b: seq<Event>)
    ensures Run(s, a + b).0 == Run(Run(s, a).0, b).0
    decreases |a|
  {
    if a == [] {
      assert a + b == b;
    } else {
      assert (a + b)[0] == a[0];
      assert (a + b)[1..] == a[1..] + b;
      RunCons(s, a + b);
      RunCons(s, a);
      RunAppendState(Step(s, a[0]), a[1..], b);
    }
  }

  /** ... and sends what the first run sent, then what the second sent. */
  lemma {:induction false} RunAppendSent(s: State, a: seq<Event>, b: seq<Event>)
    ensures Run(s, a + b).1 == Run(s, a).1 + Run(Run(s, a).0, b).1
    decreases |a|
  {
    if a == [] {
      assert a + b == b;
    } else {
      var t := Step(s, a[0]);
      assert (a + b)[0] == a[0];
      assert (a + b)[1..] == a[1..] + b;
      RunCons(s, a + b);
      RunCons(s, a);
      RunAppendSent(t, a[1..], b);
      ConcatAssociative(Sent(Request(s, a[0])), Run(t, a[1..]).1, Run(Run(t, a[1..]).0, b).1);
    }
  }

  /** Regrouping a concatenation; a separate step keeps `RunAppendSent`'s
      proof small. */
  lemma ConcatAssociative(x: seq<string>, y: seq<string>, z: seq<string>)
    ensures x + (y + z) == (x + y) + z
  {
  }

  /** A run of keystrokes. */
  function Edits(texts: seq<string>): (events: seq<Event>)
    ensures |events| == |texts|
    ensures forall i :: 0 <= i < |texts| ==> events[i] == TextChanged(texts[i])
  {
    seq(|texts|, i requires 0 <= i < |texts| => TextChanged(texts[i]))
  }

  /** Typing sends nothing: every request waits for the debounce timer. */
  lemma {:induction false} EditsSendNothing(s: State, texts: seq<string>)
    ensures Run(s, Edits(texts)).1 == []
    ensures texts != [] ==> Run(s, Edits(texts)).0.searchText == texts[|texts| - 1]
    decreases |texts|
  {
    if texts != [] {
      assert Edits(texts)[1..] == Edits(texts[1..]);
      EditsSendNothing(ChangeText(s, texts[0]), texts[1..]);
    }
  }

  /** The state after a burst of keystrokes is the last keystroke applied to
      the state before it. */
  lemma BurstEndsWithLastEdit(s: State, texts: seq<string>)
    requires texts != []
    ensures var n := |texts|;
      Run(s, Edits(texts)).0 ==
      ChangeText(Run(s, Edits(texts[..n - 1])).0, texts[n - 1])
    ensures var n := |texts|;
      Run(s, Edits(texts[..n - 1])).0.searchText == if n == 1 then s.searchText else texts[n - 2]
  {
    var n := |texts|;
    var last := texts[n - 1];
    assert Edits(texts) == Edits(texts[..n - 1]) + [TextChanged(last)];
    RunAppendState(s, Edits(texts[..n - 1]), [TextChanged(last)]);
    if n == 1 {
      assert texts[..n - 1] == [];
    } else {
      EditsSendNothing(s, texts[..n - 1]);
      assert texts[..n - 1][n - 2] == texts[n - 2];
    }
  }

  /** A single timer tick sends at most the pending query of its generation. */
  lemma TickSends(s: State, g: nat)
    requires Inv(s)
    ensures Run(s, [TimerFired(g)]).1 ==
      if g == s.generation && s.lookup.Scheduled? then [Trim(s.searchText)] else []
  {
    assert [TimerFired(g)][1..] == [];
  }

  /** Debounce: after any burst of keystrokes, one timer tick sends at most
      one request, and only for the trimmed final text. When the last
      keystroke changed the text and that text is long enough, the tick of
      the current generation sends exactly that request. */
  lemma DebouncedRequest(s: State, texts: seq<string>, g: nat)
    requires Inv(s) && texts != []
    ensures var sent := Run(s, Edits(texts) + [TimerFired(g)]).1;
      |sent| <= 1 && (sent != [] ==> sent[0] == Trim(texts[|texts| - 1]))
    ensures var n := |texts|;
      var before := if n == 1 then s.searchText else texts[n - 2];
      var burst := Run(s, Edits(texts)).0;
      texts[n - 1] != before && LongEnough(Trim(texts[n - 1])) ==>
        Run(s, Edits(texts) + [TimerFired(burst.generation)]).1 == [Trim(texts[n - 1])]
  {
    var burst := Run(s, Edits(texts)).0;
    EditsSendNothing(s, texts);
    RunKeepsInv(s, Edits(texts));
    RunAppendSent(s, Edits(texts), [TimerFired(g)]);
    TickSends(burst, g);
    RunAppendSent(s, Edits(texts), [TimerFired(burst.generation)]);
    TickSends(burst, burst.generation);
    BurstEndsWithLastEdit(s, texts);
  }

  /** Typing "Lon", "Lond", "London" in quick succession on a fresh bar
      sends one request, for "London". */
  lemma LondonScenario()
    ensures var texts := ["Lon", "Lond", "London"];
      var burst := Run(Init(), Edits(texts)).0;
      Run(Init(), Edits(texts) + [TimerFired(burst.generation)]).1 == ["London"]
  {
    var texts := ["Lon", "Lond", "London"];
    var last := texts[2];
    assert last == "London" && |last| == 6 && last[0] == 'L' && last[5] == 'n';
    assert texts[1] != last;
    TrimUnpadded(last);
    DebouncedRequest(Init(), texts, 0);
  }
}
