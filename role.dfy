/** The role details page: fetching one role by title and turning its raw
    title ("software_engineer") into a heading ("Software Engineer"). */
module RolePage {
  import opened Wrappers
  import Text

  const LoadError := "Failed to load role details. Please try again."

  /** `toUpperCase` on one character, for the ASCII letters. */
  function UpperAscii(c: char): (u: char)
    ensures 'a' <= c <= 'z' ==> u as int == c as int - 32
    ensures !('a' <= c <= 'z') ==> u == c
  {
    if 'a' <= c <= 'z' then (c as int - 32) as char else c
  }

  /** `w ? w[0].toUpperCase() + w.slice(1) : ''` */
  function Capitalize(w: string): (r: string)
    ensures |r| == |w|
    ensures |w| > 0 ==> r[0] == UpperAscii(w[0]) && r[1..] == w[1..]
  {
    if w == "" then "" else [UpperAscii(w[0])] + w[1..]
  }

  function CapitalizeAll(ws: seq<string>): (r: seq<string>)
    ensures |r| == |ws|
    ensures forall k :: 0 <= k < |ws| ==> r[k] == Capitalize(ws[k])
  {
    seq(|ws|, k requires 0 <= k < |ws| => Capitalize(ws[k]))
  }

  /** `(rawTitle || '')`: a missing title reads as the empty string. */
  function RawText(raw: Option<string>): string
  {
    if raw.Some? then raw.value else ""
  }

  /** What `prettifyTitle` makes of the character at position `i`: an
      underscore becomes a space, the first character of each
      underscore-separated segment is upper-cased, anything else stays.
      `atStart` says whether position 0 begins a segment. */
  function PrettyAt(s: string, atStart: bool, i: nat): char
    requires i < |s|
  {
    if s[i] == '_' then ' '
    else if (if i == 0 then atStart else s[i - 1] == '_') then UpperAscii(s[i])
    else s[i]
  }

  /** `prettifyTitle`: split on '_', capitalise every piece, join with ' '.
      The result has exactly the input's length: each underscore becomes
      one space, the first character of each segment is upper-cased, and no
      other character is added, removed or changed. A missing or empty
      title gives the empty heading. */
  function PrettifyTitle(raw: Option<string>): (r: string)
    ensures |r| == |RawText(raw)|
    ensures forall i :: 0 <= i < |r| ==> r[i] == PrettyAt(RawText(raw), true, i)
  {
    var s := RawText(raw);
    SplitCapitalizeJoin(s, true);
    ScanAt(s, true);
    assert [Capitalize(Text.Split(s, '_')[0])] + CapitalizeAll(Text.Split(s, '_')[1..])
        == CapitalizeAll(Text.Split(s, '_'));
    Text.Join(CapitalizeAll(Text.Split(s, '_')), ' ')
  }

  /** A one-pass reading of `PrettifyTitle`; `atStart` says whether the
      first character begins a segment. */
  function Scan(s: string, atStart: bool): (r: string)
    ensures |r| == |s|
  {
    if s == [] then []
    else if s[0] == '_' then [' '] + Scan(s[1..], true)
    else [if atStart then UpperAscii(s[0]) else s[0]] + Scan(s[1..], false)
  }

  /** `Scan` character by character. */
  lemma {:induction false} ScanAt(s: string, atStart: bool)
    ensures forall i :: 0 <= i < |s| ==> Scan(s, atStart)[i] == PrettyAt(s, atStart, i)
    decreases |s|
  {
    if s != [] {
      var tail := s[1..];
      ScanAt(tail, s[0] == '_');
      forall i | 1 <= i < |s|
        ensures Scan(s, atStart)[i] == PrettyAt(s, atStart, i)
      {
        assert Scan(s, atStart)[i] == Scan(tail, s[0] == '_')[i - 1];
        assert tail[i - 1] == s[i];
        if i > 1 {
          assert tail[i - 2] == s[i - 1];
        }
      }
    }
  }

  /** Splitting, capitalising (all pieces, or all but the first when the
      scan does not start a segment) and joining is the one-pass scan. */
  lemma {:induction false} SplitCapitalizeJoin(s: string, atStart: bool)
    ensures var parts := Text.Split(s, '_');
      Text.Join([if atStart then Capitalize(parts[0]) else parts[0]] + CapitalizeAll(parts[1..]), ' ')
        == Scan(s, atStart)
    decreases |s|
  {
    var parts := Text.Split(s, '_');
    if s != [] {
      var rest := Text.Split(s[1..], '_');
      if s[0] == '_' {
        SplitCapitalizeJoin(s[1..], true);
        assert parts == [""] + rest;
        assert parts[1..] == rest;
        assert [Capitalize(rest[0])] + CapitalizeAll(rest[1..]) == CapitalizeAll(rest);
        Text.JoinEmptyFirst(CapitalizeAll(rest), ' ');
        assert [""] + CapitalizeAll(rest) == [if atStart then Capitalize(parts[0]) else parts[0]] + CapitalizeAll(parts[1..]);
      } else {
        SplitCapitalizeJoin(s[1..], false);
        var c := if atStart then UpperAscii(s[0]) else s[0];
        assert parts == [[s[0]] + rest[0]] + rest[1..];
        assert parts[1..] == rest[1..];
        assert (if atStart then Capitalize(parts[0]) else parts[0]) == [c] + rest[0];
        Text.JoinConsChar(c, rest[0], CapitalizeAll(rest[1..]), ' ');
      }
    }
  }

  /** Prettifying a heading again changes nothing. */
  lemma PrettifyIdempotent(raw: Option<string>)
    ensures PrettifyTitle(Some(PrettifyTitle(raw))) == PrettifyTitle(raw)
  {
    var s := RawText(raw);
    var r := PrettifyTitle(raw);
    var rr := PrettifyTitle(Some(r));
    assert forall i :: 0 <= i < |r| ==> r[i] != '_';
    forall i | 0 <= i < |r|
      ensures rr[i] == r[i]
    {
      if i == 0 {
        assert UpperAscii(UpperAscii(s[0])) == UpperAscii(s[0]);
      }
    }
  }

  // ---------------------------------------------------------------------
  // Fetching the role
  // ---------------------------------------------------------------------

  /** The role record; only its title matters to the page's logic. */
  datatype Role = Role(title: Option<string>, interviewType: string, techStack: seq<string>)

  /** `response.data.data`: missing, null, an array of roles or one role. */
  datatype Payload = Undefined | Null | Many(roles: seq<Role>) | One(role: Role)

  /** `Array.isArray(data) ? data[0] : data`, then `?? null`: an array gives
      its first element (none when empty), anything else itself (none when
      missing or null). */
  function PickRole(data: Payload): (r: Option<Role>)
    ensures r.None? <==> data.Undefined? || data.Null? || data == Many([])
    ensures data.Many? && |data.roles| > 0 ==> r == Some(data.roles[0])
    ensures data.One? ==> r == Some(data.role)
  {
    match data
    case Many(roles) => if |roles| > 0 then Some(roles[0]) else None
    case One(role) => Some(role)
    case _ => None
  }

  /** How the request settles. */
  datatype Fetch = RequestFailed | Received(data: Payload)

  /** What the page shows under its navigation buttons. */
  datatype View = Loading | Failed(message: string) | NoRole | Heading(title: string)

  class Page {
    var roleDetails: Option<Role>
    var loading: bool
    var error: string

    constructor()
      ensures roleDetails == None && loading && error == ""
    {
      roleDetails := None;
      loading := true;
      error := "";
    }

    /** `fetchRoles`: a failed request shows the fixed error and forgets any
        role; a successful one clears the error and keeps the picked role.
        Loading has ended on every path. */
    method FetchRoles(outcome: Fetch)
      modifies this
      ensures !loading
      ensures outcome.RequestFailed? ==> error == LoadError && roleDetails == None
      ensures outcome.Received? ==> error == "" && roleDetails == PickRole(outcome.data)
      ensures View() != Loading
    {
      loading := true;
      error := "";
      if outcome.RequestFailed? {
        error := LoadError;
        roleDetails := None;
      } else {
        roleDetails := PickRole(outcome.data);
      }
      loading := false;
    }

    /** Loading first, then an error, then "no role", then the heading. */
    function View(): (v: View)
      reads this
      ensures v == Loading <==> loading
      ensures v.Failed? <==> !loading && error != ""
      ensures v == NoRole <==> !loading && error == "" && roleDetails.None?
      ensures v.Heading? ==> v.title == PrettifyTitle(roleDetails.value.title)
    {
      if loading then Loading
      else if error != "" then Failed(error)
      else if roleDetails.None? then NoRole
      else Heading(PrettifyTitle(roleDetails.value.title))
    }
  }
}
