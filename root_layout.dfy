/**
 * `recordCurrentPosition` of the root layout: ask for the location
 * permission, read the position, and put the outcome in the search text.
 * The platform's answers are parameters; the text of a position fix
 * (latitude and longitude with four decimals) is taken as it is given.
 */
module RootLayout {
  import opened Wrappers
  import opened Whitespace
  import opened SuggestionState
  import opened TopBarComponent

  /** The `status` of `requestForegroundPermissionsAsync`. */
  datatype PermissionStatus = Granted | Denied | Undetermined

  /** How `requestForegroundPermissionsAsync` ends: with a status, or by
      rejecting. The permission request is outside the `try`, so a rejection
      ends `recordCurrentPosition` at once. */
  datatype PermissionAnswer = Answered(status: PermissionStatus) | RequestRejected

  /** How `getCurrentPositionAsync` ends. */
  datatype PositionOutcome =
    | Fix(coordinates: string)   // the "latitude, longitude" text built from the fix
    | Unavailable                // the call threw

  const PermissionDeniedText: string := "Location permission denied"
  const UnavailableText: string := "Location unavailable"

  /** The search text `recordCurrentPosition` sets for each outcome, or `None`
      when it sets none because the permission request rejected. */
  function PositionText(permission: PermissionAnswer, position: PositionOutcome): (text: Option<string>)
    ensures text.None? <==> permission.RequestRejected?
    ensures permission.Answered? && permission.status != Granted ==> text == Some(PermissionDeniedText)
    ensures permission == Answered(Granted) && position.Unavailable? ==> text == Some(UnavailableText)
    ensures permission == Answered(Granted) && position.Fix? ==> text == Some(position.coordinates)
  {
    match permission
    case RequestRejected => None
    case Answered(status) =>
      if status != Granted then Some(PermissionDeniedText)
      else match position
        case Fix(coordinates) => Some(coordinates)
        case Unavailable => Some(UnavailableText)
  }

  /** `recordCurrentPosition` on the bar's search text. The position is only
      asked for when the permission was granted; the outcome's text goes
      through `setSearchText`, so the bar's query effect sees it too, and
      nothing else changes. A rejected permission request changes nothing. */
  method RecordCurrentPosition(bar: TopBar, permission: PermissionAnswer, position: PositionOutcome)
    returns (positionRequested: bool)
    requires bar.Valid()
    modifies bar
    ensures bar.Valid()
    ensures positionRequested <==> permission == Answered(Granted)
    ensures permission.RequestRejected? ==> bar.Model() == old(bar.Model())
    ensures permission.Answered? ==>
      bar.Model() == SetSearchText(old(bar.Model()), PositionText(permission, position).value)
    ensures bar.suggestionsVisible == old(bar.suggestionsVisible)
  {
    if permission.RequestRejected? {
      return false;
    }
    if permission.status != Granted {
      bar.SetSearchText(PermissionDeniedText);
      return false;
    }
    positionRequested := true;
    match position {
      case Fix(coordinates) =>
        bar.SetSearchText(coordinates);
      case Unavailable =>
        bar.SetSearchText(UnavailableText);
    }
  }

  /** Any new text that does not start or end with whitespace and has at
      least two UTF-16 code units schedules a lookup of itself. */
  lemma UnpaddedTextIsLookedUp(s: State, value: string)
    requires Inv(s) && value != s.searchText && LongEnough(value)
    requires !IsWhitespace(value[0]) && !IsWhitespace(value[|value| - 1])
    ensures SetSearchText(s, value).lookup == Scheduled(value)
  {
    TrimUnpadded(value);
  }

  /** The messages are searched for like typed text: after a denial the bar
      schedules a suggestion lookup for "Location permission denied". */
  lemma DeniedTextIsLookedUp(s: State, status: PermissionStatus, position: PositionOutcome)
    requires Inv(s) && s.searchText != PermissionDeniedText && status != Granted
    ensures SetSearchText(s, PositionText(Answered(status), position).value).lookup == Scheduled(PermissionDeniedText)
  {
    var text := PermissionDeniedText;
    assert |text| == 26 && text[0] == 'L' && text[25] == 'd';
    UnpaddedTextIsLookedUp(s, text);
  }

  /** ... and after a failed fix, one for "Location unavailable". */
  lemma UnavailableTextIsLookedUp(s: State)
    requires Inv(s) && s.searchText != UnavailableText
    ensures SetSearchText(s, PositionText(Answered(Granted), Unavailable).value).lookup == Scheduled(UnavailableText)
  {
    var text := UnavailableText;
    assert |text| == 20 && text[0] == 'L' && text[19] == 'e';
    UnpaddedTextIsLookedUp(s, text);
  }
}
