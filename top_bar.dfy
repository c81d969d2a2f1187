/**
 * The `TopBar` component as an object: the search text it is given with its
 * setter, and its three pieces of suggestion state, updated by one method
 * per handler or effect step. Each method is proved against the matching
 * function of `SuggestionState`, so everything proved there holds of it.
 */
module TopBarComponent {
  import opened Wrappers
  import opened Whitespace
  import opened SuggestionLabel
  import opened SuggestionState

  class TopBar {
    var searchText: string
    var suggestionsVisible: bool
    var suggestions: seq<GeocodingResult>
    var suggestionsLoading: bool
    /** Counts the runs of the query effect; stands for the timer id and the
        abort controller that its cleanup cancels. */
    var generation: nat
    var lookup: Lookup

    function Model(): State
      reads this
    {
      State(searchText, suggestionsVisible, suggestions, suggestionsLoading, generation, lookup)
    }

    ghost predicate Valid()
      reads this
    {
      Inv(Model())
    }

    /** Mounting: all state empty, the query effect has run on "". */
    constructor ()
      ensures Valid() && Model() == Init()
    {
      searchText := "";
      suggestionsVisible := false;
      suggestions := [];
      suggestionsLoading := false;
      generation := 0;
      lookup := Idle;
    }

    /** The try, catch and finally blocks run on the request's outcome. */
    method Finish(outcome: Outcome)
      modifies this
      ensures Model() == SuggestionState.Finish(old(Model()), outcome)
    {
      match outcome {
        case NotOk =>
          suggestions := [];
        case Ok(results) =>
          suggestions := if results.Some? then results.value else [];
        case Aborted =>
        case Failed =>
          suggestions := [];
      }
      suggestionsLoading := false;
      lookup := Idle;
    }

    /** The cleanup of the query effect: abort, clear the timer. */
    method Cleanup()
      modifies this
      ensures Model() == SuggestionState.Cleanup(old(Model()))
    {
      if lookup.InFlight? {
        Finish(Aborted);
      }
      lookup := Idle;
      generation := generation + 1;
    }

    /** The query effect on `searchText`. */
    method QueryEffect()
      requires lookup == Idle
      modifies this
      ensures Model() == SuggestionState.QueryEffect(old(Model()))
    {
      var query := Trim(searchText);
      if !LongEnough(query) {
        suggestions := [];
        suggestionsLoading := false;
        return;
      }
      lookup := Scheduled(query);
    }

    /** `setSearchText(value)` followed by the re-run of the query effect. */
    method SetSearchText(value: string)
      requires Valid()
      modifies this
      ensures Valid()
      ensures Model() == SuggestionState.SetSearchText(old(Model()), value)
    {
      if value != searchText {
        searchText := value;
        Cleanup();
        QueryEffect();
      }
    }

    /** `onChangeText`. */
    method ChangeText(value: string)
      requires Valid()
      modifies this
      ensures Valid()
      ensures Model() == SuggestionState.ChangeText(old(Model()), value)
    {
      SetSearchText(value);
      suggestionsVisible := |Trim(value)| > 0;
    }

    /** `onFocus`. */
    method Focus()
      requires Valid()
      modifies this
      ensures Valid()
      ensures Model() == SuggestionState.Focus(old(Model()))
    {
      suggestionsVisible := |Trim(searchText)| > 0;
    }

    /** `onSubmitEditing`. */
    method SubmitEditing()
      requires Valid()
      modifies this
      ensures Valid()
      ensures Model() == Hide(old(Model()))
    {
      suggestionsVisible := false;
    }

    /** The `keyboardDidHide` listener. */
    method KeyboardDidHide()
      requires Valid()
      modifies this
      ensures Valid()
      ensures Model() == Hide(old(Model()))
    {
      suggestionsVisible := false;
    }

    /** `selectSuggestion(result)`. */
    method SelectSuggestion(result: GeocodingResult)
      requires Valid()
      modifies this
      ensures Valid()
      ensures Model() == Select(old(Model()), result)
    {
      var text := FormatSuggestionLabel(result);
      SetSearchText(text);
      suggestionsVisible := false;
      assert Model() == SuggestionState.SetSearchText(old(Model()), text).(visible := false);
    }

    /** The debounce timer of effect run `g` fires; returns the query sent. */
    method TimerFired(g: nat) returns (request: Option<string>)
      requires Valid()
      modifies this
      ensures Valid()
      ensures Model() == StartLookup(old(Model()), g)
      ensures request == Request(old(Model()), Event.TimerFired(g))
    {
      if g != generation || !lookup.Scheduled? {
        return None;
      }
      suggestionsLoading := true;
      request := Some(lookup.query);
      lookup := InFlight(lookup.query);
    }

    /** The request of effect run `g` ends with `outcome`. */
    method LookupFinished(g: nat, outcome: Outcome)
      requires Valid()
      modifies this
      ensures Valid()
      ensures Model() == CompleteLookup(old(Model()), g, outcome)
    {
      if g == generation && lookup.InFlight? {
        Finish(outcome);
      }
    }
  }
}
