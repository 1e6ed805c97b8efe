/**
 * Colour enrichment: `normalizeName`, `extractHex`, `addColoursToTeam` and
 * `addColoursToTeams`.
 */
module Colours {
  import opened Wrappers
  import opened Rgb
  import opened Records

  /** `\w` in a regular expression without the `u` flag: `[A-Za-z0-9_]`. */
  predicate IsWordChar(c: char)
  {
    'A' <= c <= 'Z' || 'a' <= c <= 'z' || '0' <= c <= '9' || c == '_'
  }

  /** The word characters of s, in order and with their case. */
  function WordChars(s: string): string
  {
    if s == [] then [] else (if IsWordChar(s[0]) then [s[0]] else []) + WordChars(s[1..])
  }

  /**
   * Where s has non-word characters: each is recorded by the number of word
   * characters in front of it.
   */
  function Gaps(s: string): set<nat>
  {
    if s == [] then {}
    else if IsWordChar(s[0]) then Shift(Gaps(s[1..]))
    else {0} + Gaps(s[1..])
  }

  function Shift(g: set<nat>): (r: set<nat>)
    ensures forall k :: k in g <==> k + 1 in r
    ensures 0 !in r
  {
    set k | k in g :: k + 1
  }

  /**
   * A name in the form `normalizeName` returns: every non-word character is
   * a space, and no two of them are adjacent.
   */
  predicate IsNormalizedName(s: string)
  {
    forall i :: 0 <= i < |s| ==> SingleSpaceAt(s, i)
  }

  /** Position i holds a word character, or a space that ends the string or precedes one. */
  predicate SingleSpaceAt(s: string, i: nat)
    requires i < |s|
  {
    !IsWordChar(s[i]) ==> s[i] == ' ' && (i + 1 < |s| ==> IsWordChar(s[i + 1]))
  }

  /** s without its leading run of non-word characters. */
  function SkipNonWord(s: string): (r: string)
    ensures |r| <= |s| && (r == [] || IsWordChar(r[0]))
    ensures s != [] && !IsWordChar(s[0]) ==>
      |r| < |s| && Gaps(s) == {0} + Gaps(r) && WordChars(s) == WordChars(r)
  {
    if s != [] && !IsWordChar(s[0]) then SkipNonWord(s[1..]) else s
  }

  /**
   * `name.replace(/\W+/g, " ")`: every maximal run of non-word characters
   * becomes one space. What this means is stated by `NormalizeNameShape`.
   */
  function NormalizeName(s: string): (r: string)
    ensures |r| <= |s|
    ensures r == [] <==> s == []
    decreases |s|
  {
    if s == [] then []
    else if IsWordChar(s[0]) then [s[0]] + NormalizeName(s[1..])
    else [' '] + NormalizeName(SkipNonWord(s))
  }

  /** How the word characters and the gaps of a string start. */
  lemma Unfold(s: string)
    requires s != []
    ensures IsWordChar(s[0]) ==> WordChars(s) == [s[0]] + WordChars(s[1..])
    ensures IsWordChar(s[0]) ==> Gaps(s) == Shift(Gaps(s[1..]))
    ensures !IsWordChar(s[0]) ==> WordChars(s) == WordChars(s[1..])
    ensures !IsWordChar(s[0]) ==> Gaps(s) == {0} + Gaps(s[1..])
    ensures 0 in Gaps(s) <==> !IsWordChar(s[0])
  {
  }

  /** A word character, or a space before a word character or the end, in front of a normalized name. */
  lemma NormalizedCons(c: char, t: string)
    requires IsNormalizedName(t)
    requires IsWordChar(c) || (c == ' ' && (t == [] || IsWordChar(t[0])))
    ensures IsNormalizedName([c] + t)
  {
    var s := [c] + t;
    forall i | 0 <= i < |s| ensures SingleSpaceAt(s, i) {
      if i > 0 {
        assert SingleSpaceAt(t, i - 1);
        assert s[i] == t[i - 1];
        assert i + 1 < |s| ==> s[i + 1] == t[i];
      }
    }
  }

  /**
   * `normalizeName` keeps the word characters in order and in their case,
   * keeps the places of the gaps between them, and leaves every gap as a
   * single space.
   */
  lemma {:induction false} NormalizeNameShape(s: string)
    ensures WordChars(NormalizeName(s)) == WordChars(s)
    ensures Gaps(NormalizeName(s)) == Gaps(s)
    ensures IsNormalizedName(NormalizeName(s))
    ensures s != [] ==> NormalizeName(s) != [] && (IsWordChar(NormalizeName(s)[0]) <==> IsWordChar(s[0]))
    decreases |s|
  {
    if s != [] {
      var r := NormalizeName(s);
      Unfold(s);
      if IsWordChar(s[0]) {
        var rest := NormalizeName(s[1..]);
        NormalizeNameShape(s[1..]);
        assert r == [s[0]] + rest;
        assert r[1..] == rest;
        Unfold(r);
        NormalizedCons(s[0], rest);
      } else {
        var t := SkipNonWord(s);
        var rest := NormalizeName(t);
        NormalizeNameShape(t);
        assert r == [' '] + rest;
        assert r[1..] == rest;
        Unfold(r);
        NormalizedCons(' ', rest);
      }
    }
  }

  /**
   * Two normalized names with the same word characters and the same gaps
   * are the same name.
   */
  lemma {:induction false} NormalizedUnique(x: string, y: string)
    requires IsNormalizedName(x) && IsNormalizedName(y)
    requires WordChars(x) == WordChars(y) && Gaps(x) == Gaps(y)
    ensures x == y
  {
    if x == [] || y == [] {
      EmptyName(x, y);
    } else {
      SameHead(x, y);
      NormalizedUnique(x[1..], y[1..]);
      assert x == [x[0]] + x[1..] && y == [y[0]] + y[1..];
    }
  }

  /** Only the empty name has no word characters and no gaps. */
  lemma EmptyName(x: string, y: string)
    requires WordChars(x) == WordChars(y) && Gaps(x) == Gaps(y)
    requires x == [] || y == []
    ensures x == y
  {
    if x != [] {
      Unfold(x);
    } else if y != [] {
      Unfold(y);
    }
  }

  /** Two normalized names that agree on word characters and gaps start alike. */
  lemma SameHead(x: string, y: string)
    requires IsNormalizedName(x) && IsNormalizedName(y) && x != [] && y != []
    requires WordChars(x) == WordChars(y) && Gaps(x) == Gaps(y)
    ensures x[0] == y[0]
    ensures IsNormalizedName(x[1..]) && IsNormalizedName(y[1..])
    ensures WordChars(x[1..]) == WordChars(y[1..]) && Gaps(x[1..]) == Gaps(y[1..])
  {
    NormalizedTail(x);
    NormalizedTail(y);
    assert IsWordChar(x[0]) == IsWordChar(y[0]) by {
      Unfold(x);
      Unfold(y);
    }
    if IsWordChar(x[0]) {
      SameHeadWord(x, y);
    } else {
      SameHeadSpace(x, y);
    }
  }

  lemma SameHeadWord(x: string, y: string)
    requires x != [] && y != [] && IsWordChar(x[0]) && IsWordChar(y[0])
    requires WordChars(x) == WordChars(y) && Gaps(x) == Gaps(y)
    ensures x[0] == y[0]
    ensures WordChars(x[1..]) == WordChars(y[1..]) && Gaps(x[1..]) == Gaps(y[1..])
  {
    Unfold(x);
    Unfold(y);
    assert WordChars(x)[1..] == WordChars(x[1..]);
    assert WordChars(y)[1..] == WordChars(y[1..]);
    ShiftInjective(Gaps(x[1..]), Gaps(y[1..]));
  }

  lemma SameHeadSpace(x: string, y: string)
    requires IsNormalizedName(x) && IsNormalizedName(y)
    requires x != [] && y != [] && !IsWordChar(x[0]) && !IsWordChar(y[0])
    requires WordChars(x) == WordChars(y) && Gaps(x) == Gaps(y)
    ensures x[0] == y[0]
    ensures WordChars(x[1..]) == WordChars(y[1..]) && Gaps(x[1..]) == Gaps(y[1..])
  {
    Unfold(x);
    Unfold(y);
    NormalizedUniqueAfterSpace(x);
    NormalizedUniqueAfterSpace(y);
    assert Gaps(x[1..]) == Gaps(x) - {0};
    assert Gaps(y[1..]) == Gaps(y) - {0};
  }

  lemma NormalizedTail(s: string)
    requires IsNormalizedName(s) && s != []
    ensures IsNormalizedName(s[1..])
  {
    forall i | 0 <= i < |s[1..]| ensures SingleSpaceAt(s[1..], i) {
      assert SingleSpaceAt(s, i + 1);
      assert s[1..][i] == s[i + 1];
    }
  }

  lemma ShiftInjective(a: set<nat>, b: set<nat>)
    requires Shift(a) == Shift(b)
    ensures a == b
  {
  }

  /** In a normalized name, a space is followed by a word character, so no gap at 0. */
  lemma NormalizedUniqueAfterSpace(x: string)
    requires IsNormalizedName(x) && x != [] && !IsWordChar(x[0])
    ensures x[0] == ' ' && 0 !in Gaps(x[1..])
  {
    assert SingleSpaceAt(x, 0);
    if x[1..] != [] {
      assert x[1..][0] == x[1];
      Unfold(x[1..]);
    }
  }

  /**
   * Colour matching compares normalized names: two names match exactly when
   * they have the same word characters, case included, and non-word
   * characters at the same places. Neither case nor the length or content of
   * a run of punctuation and spaces is taken into account beyond that.
   */
  lemma NamesMatch(a: string, b: string)
    ensures NormalizeName(a) == NormalizeName(b) <==>
              WordChars(a) == WordChars(b) && Gaps(a) == Gaps(b)
  {
    NormalizeNameShape(a);
    NormalizeNameShape(b);
    if WordChars(a) == WordChars(b) && Gaps(a) == Gaps(b) {
      NormalizedUnique(NormalizeName(a), NormalizeName(b));
    }
  }

  /** A normalized name is left alone by `normalizeName`, and only such a name is. */
  lemma NormalizeNameFixpoint(s: string)
    ensures NormalizeName(s) == s <==> IsNormalizedName(s)
  {
    NormalizeNameShape(s);
    if IsNormalizedName(s) {
      NormalizedUnique(NormalizeName(s), s);
    }
  }

  /** Normalizing a normalized name changes nothing. */
  lemma NormalizeNameIdempotent(s: string)
    ensures NormalizeName(NormalizeName(s)) == NormalizeName(s)
  {
    NormalizeNameShape(s);
    NormalizeNameFixpoint(NormalizeName(s));
  }

  /** The `colors` object of an entry of `colors.json`. */
  datatype Colors = Colors(hex: Option<seq<string>>, rgb: Option<seq<string>>)

  /** An entry of `colors.json`. */
  datatype TeamColour = TeamColour(name: string, league: string, colors: Colors)

  /**
   * The `rgb` branch is only described for an `rgb` array whose first element
   * is three space-separated decimal integers of at most 255.
   */
  predicate Extractable(c: Colors)
  {
    c.hex.Some? || c.rgb.None? || (|c.rgb.value| > 0 && ParseRgb(c.rgb.value[0]).Some?)
  }

  /**
   * `extractHex(colourHash)`: the first element of `hex` when there is a
   * `hex` field, even if `rgb` is there too (an empty `hex` array gives
   * `undefined`); otherwise the six hex digits of the three channels in
   * `rgb[0]`; otherwise `null`.
   */
  function ExtractHex(c: Colors): (r: ColourField)
    requires Extractable(c)
    ensures c.hex.Some? ==> r == (if |c.hex.value| > 0 then Hex(c.hex.value[0]) else Absent)
    ensures c.hex.None? && c.rgb.Some? ==>
              r.Hex? && IsHexColour(r.code) && DecodeHex(r.code) == ParseRgb(c.rgb.value[0]).value
    ensures c.hex.None? && c.rgb.None? ==> r == Null
  {
    if c.hex.Some? then
      (if |c.hex.value| > 0 then Hex(c.hex.value[0]) else Absent)
    else if c.rgb.Some? then
      var channels := ParseRgb(c.rgb.value[0]).value;
      RgbHexRoundTrip(channels.0, channels.1, channels.2);
      Hex(RgbHex(channels.0, channels.1, channels.2))
    else
      Null
  }

  /** An entry whose `rgb` is `"r g b"` yields the hex encoding of those channels. */
  lemma ExtractHexOfRgbText(r: nat, g: nat, b: nat)
    requires r < 256 && g < 256 && b < 256
    ensures Extractable(Colors(None, Some([FormatRgb(r, g, b)])))
    ensures ExtractHex(Colors(None, Some([FormatRgb(r, g, b)]))) == Hex(RgbHex(r, g, b))
  {
    ParseRgbRoundTrip(r, g, b);
  }

  /** The display name colour entries are matched against: `city + " " + name`. */
  function TeamName(team: Team): (r: string)
    ensures |r| == |team.city| + 1 + |team.name|
    ensures r[..|team.city|] == team.city && r[|team.city|] == ' ' && r[|team.city| + 1..] == team.name
  {
    team.city + " " + team.name
  }

  predicate NameMatches(c: TeamColour, teamName: string)
  {
    NormalizeName(c.name) == NormalizeName(teamName)
  }

  /** `teamColours.find(...)`: the index of the first entry whose name matches. */
  function FindColour(colours: seq<TeamColour>, teamName: string): (r: Option<nat>)
    ensures r.Some? ==> r.value < |colours| && NameMatches(colours[r.value], teamName)
    ensures r.Some? ==> forall j :: 0 <= j < r.value ==> !NameMatches(colours[j], teamName)
    ensures r.None? ==> forall j :: 0 <= j < |colours| ==> !NameMatches(colours[j], teamName)
  {
    FindColourFrom(colours, teamName, 0)
  }

  /** The search from index `from` on. */
  function FindColourFrom(colours: seq<TeamColour>, teamName: string, from: nat): (r: Option<nat>)
    requires from <= |colours|
    ensures r.Some? ==> from <= r.value < |colours| && NameMatches(colours[r.value], teamName)
    ensures r.Some? ==> forall j :: from <= j < r.value ==> !NameMatches(colours[j], teamName)
    ensures r.None? ==> forall j :: from <= j < |colours| ==> !NameMatches(colours[j], teamName)
    decreases |colours| - from
  {
    if from == |colours| then None
    else if NameMatches(colours[from], teamName) then Some(from)
    else FindColourFrom(colours, teamName, from + 1)
  }

  /** The entry at index i is the first one matching the team's name. */
  predicate FirstMatch(colours: seq<TeamColour>, teamName: string, i: nat)
  {
    && i < |colours|
    && NameMatches(colours[i], teamName)
    && forall j :: 0 <= j < i ==> !NameMatches(colours[j], teamName)
  }

  /** The colour entry a team would be given can be read. */
  predicate Colourable(team: Team, colours: seq<TeamColour>)
  {
    forall i :: 0 <= i < |colours| && FirstMatch(colours, TeamName(team), i) ==>
      Extractable(colours[i].colors)
  }

  /**
   * `addColoursToTeam(team, teamColours)`: when some entry's normalized name
   * equals the normalized `city + " " + name`, the first such entry's colour
   * is assigned to `colour`; with no match the team is returned as it was.
   * No other field changes.
   */
  function AddColoursToTeam(team: Team, colours: seq<TeamColour>): (r: Team)
    requires Colourable(team, colours)
    ensures r.(colour := team.colour) == team
    ensures (forall i :: 0 <= i < |colours| ==> !NameMatches(colours[i], TeamName(team))) ==> r == team
    ensures forall i :: 0 <= i < |colours| && FirstMatch(colours, TeamName(team), i) ==>
              r.colour == ExtractHex(colours[i].colors)
  {
    match FindColour(colours, TeamName(team))
    case None => team
    case Some(i) =>
      assert FirstMatch(colours, TeamName(team), i);
      assert forall k :: FirstMatch(colours, TeamName(team), k) ==> k == i;
      team.(colour := ExtractHex(colours[i].colors))
  }

  /**
   * `addColoursToTeams(teams, teamColours)`: the same teams, in the same
   * order, each given its colour as `addColoursToTeam` says.
   */
  function AddColoursToTeams(teams: seq<Team>, colours: seq<TeamColour>): (r: seq<Team>)
    requires forall i :: 0 <= i < |teams| ==> Colourable(teams[i], colours)
    ensures |r| == |teams|
    ensures forall i :: 0 <= i < |teams| ==> r[i] == AddColoursToTeam(teams[i], colours)
    ensures forall i :: 0 <= i < |teams| ==> r[i].(colour := teams[i].colour) == teams[i]
  {
    seq(|teams|, i requires 0 <= i < |teams| => AddColoursToTeam(teams[i], colours))
  }
}
