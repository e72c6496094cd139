/** The request-side checks of session.py that run before any request is
    made: the identifier check, the OAuth scope whitelist, and the include
    checks of the lookups. */
module Session {

  import opened Wrappers
  import opened Schema
  import opened Includes

  /** Why a call raises `ValueError` (or, as written, `NameError`). */
  datatype Error =
    | InvalidId
    | InvalidScope(scope: string)
    | InvalidInclude(inc: string)
    | LoginRequired(userInclude: string)
    | UnboundSelf

  /** A check that passes or raises. */
  datatype Outcome = Pass | Fail(error: Error)

  /** `[0-9a-f]` under `re.I`. */
  predicate IsHexDigit(c: char)
  {
    '0' <= c <= '9' || 'a' <= c <= 'f' || 'A' <= c <= 'F'
  }

  predicate AllHex(s: string)
  {
    forall i :: 0 <= i < |s| ==> IsHexDigit(s[i])
  }

  /** The group lengths of `uuid_regex`. */
  const UuidGroups: seq<nat> := [8, 4, 4, 4, 12]

  /** `re.match` of hex groups of the given lengths joined by "-": anchored at
      the start of `s`, and whatever follows the last group is ignored. */
  function MatchGroups(s: string, groups: seq<nat>): bool
    decreases |groups|
  {
    if groups == [] then true
    else
      var n := groups[0];
      && |s| >= n
      && AllHex(s[..n])
      && (|groups| == 1 || (|s| > n && s[n] == '-' && MatchGroups(s[n + 1..], groups[1..])))
  }

  /** The positions of the four dashes in a canonical identifier. */
  predicate IsDashPosition(i: int)
  {
    i == 8 || i == 13 || i == 18 || i == 23
  }

  /** The canonical 36-character layout, position by position. */
  predicate UuidLayout(id: string)
  {
    && |id| >= 36
    && forall i :: 0 <= i < 36 ==> if IsDashPosition(i) then id[i] == '-' else IsHexDigit(id[i])
  }

  /** `_check_valid_id`. */
  function CheckValidId(id: string): (r: Outcome)
    ensures r.Pass? <==> UuidLayout(id)
    ensures r.Fail? ==> r.error == InvalidId
  {
    UuidMatchIsLayout(id);
    if MatchGroups(id, UuidGroups) then Pass else Fail(InvalidId)
  }

  /** One group of `n` hex digits followed by `rest` matches exactly when the
      first `n` characters are hex and the remaining groups match after them. */
  lemma GroupStep(s: string, n: nat, rest: seq<nat>)
    requires rest != []
    ensures MatchGroups(s, [n] + rest) <==>
      |s| > n && AllHex(s[..n]) && s[n] == '-' && MatchGroups(s[n + 1..], rest)
  {
    assert ([n] + rest)[0] == n && ([n] + rest)[1..] == rest;
  }

  /** The group-by-group matcher accepts exactly the canonical layout. */
  lemma UuidMatchIsLayout(id: string)
    ensures MatchGroups(id, UuidGroups) <==> UuidLayout(id)
  {
    assert UuidGroups == [8] + [4, 4, 4, 12];
    GroupStep(id, 8, [4, 4, 4, 12]);
    if |id| > 8 {
      var s1 := id[9..];
      assert [4, 4, 4, 12] == [4] + [4, 4, 12];
      GroupStep(s1, 4, [4, 4, 12]);
      if |s1| > 4 {
        var s2 := s1[5..];
        assert [4, 4, 12] == [4] + [4, 12];
        GroupStep(s2, 4, [4, 12]);
        if |s2| > 4 {
          var s3 := s2[5..];
          assert [4, 12] == [4] + [12];
          GroupStep(s3, 4, [12]);
          if |s3| > 4 {
            var s4 := s3[5..];
            assert MatchGroups(s4, [12]) <==> |s4| >= 12 && AllHex(s4[..12]);
            if UuidLayout(id) {
              assert forall i :: 0 <= i < 8 ==> id[..8][i] == id[i];
              assert forall i :: 0 <= i < 4 ==> s1[..4][i] == id[9 + i];
              assert forall i :: 0 <= i < 4 ==> s2[..4][i] == id[14 + i];
              assert forall i :: 0 <= i < 4 ==> s3[..4][i] == id[19 + i];
              assert forall i :: 0 <= i < 12 ==> s4[..12][i] == id[24 + i];
            }
            if MatchGroups(id, UuidGroups) {
              forall i | 0 <= i < 36
                ensures if IsDashPosition(i) then id[i] == '-' else IsHexDigit(id[i])
              {
                if i < 8 { assert id[i] == id[..8][i]; }
                else if 8 < i < 13 { assert id[i] == s1[..4][i - 9]; }
                else if 13 < i < 18 { assert id[i] == s2[..4][i - 14]; }
                else if 18 < i < 23 { assert id[i] == s3[..4][i - 19]; }
                else if 23 < i { assert id[i] == s4[..12][i - 24]; }
              }
            }
          }
        }
      }
    }
  }

  /** The match is anchored at the start only: text after a valid identifier
      does not change the verdict. */
  lemma TrailingTextIgnored(id: string, suffix: string)
    ensures CheckValidId(id).Pass? ==> CheckValidId(id + suffix).Pass?
  {
    if UuidLayout(id) {
      assert forall i :: 0 <= i < 36 ==> (id + suffix)[i] == id[i];
    }
  }

  /** The identifier the session tests reject. */
  lemma BlahIsRejected()
    ensures CheckValidId("blah") == Fail(InvalidId)
  {
  }

  /** `valid_scope`. */
  const ValidScopes: set<string> := {
    "profile", "email", "tag", "rating", "collection", "submit_isrc", "submit_barcode"
  }

  /** The position of the first element of `xs` outside `allowed`. */
  function FirstOutside(xs: seq<string>, allowed: set<string>): (r: Option<nat>)
    ensures r.None? <==> forall i :: 0 <= i < |xs| ==> xs[i] in allowed
    ensures r.Some? ==> r.value < |xs| && xs[r.value] !in allowed
    ensures r.Some? ==> forall j :: 0 <= j < r.value ==> xs[j] in allowed
    decreases |xs|
  {
    if xs == [] then None
    else if xs[0] !in allowed then Some(0)
    else match FirstOutside(xs[1..], allowed)
      case None => None
      case Some(i) => Some(i + 1)
  }

  /** The scope loop of `AsyncSession.__init__`: `None` means no scopes, and
      the first scope outside `valid_scope` raises. */
  function CheckScopes(scopes: Option<seq<string>>): (r: Outcome)
    ensures r.Pass? <==> scopes.None? || forall i :: 0 <= i < |scopes.value| ==> scopes.value[i] in ValidScopes
    ensures r.Fail? ==> r.error.InvalidScope? && r.error.scope !in ValidScopes
    ensures r.Fail? ==> exists i :: 0 <= i < |scopes.value| && scopes.value[i] == r.error.scope
  {
    if scopes.None? then Pass
    else match FirstOutside(scopes.value, ValidScopes)
      case None => Pass
      case Some(i) => Fail(InvalidScope(scopes.value[i]))
  }

  predicate IsUserInclude(inc: string)
  {
    |inc| >= 5 && inc[..5] == "user-"
  }

  /** `_check_login_required` as written: a static method that reads
      `self._oauth`, where `self` is unbound, so every "user-" include raises
      `NameError` whether or not the session is logged in. */
  function LoginCheckAsWritten(inc: string): (r: Outcome)
    ensures r.Fail? <==> IsUserInclude(inc)
  {
    if IsUserInclude(inc) then Fail(UnboundSelf) else Pass
  }

  /** `_check_login_required` as intended: a "user-" include needs a logged-in
      session. */
  function LoginCheck(inc: string, loggedIn: bool): (r: Outcome)
    ensures r.Fail? <==> IsUserInclude(inc) && !loggedIn
    ensures r.Fail? ==> r.error == LoginRequired(inc)
  {
    if IsUserInclude(inc) && !loggedIn then Fail(LoginRequired(inc)) else Pass
  }

  /** "user-tags" is a valid artist include, and a logged-in session may ask
      for it; the code as written still raises on it. */
  lemma LoginCheckCounterexample()
    ensures ValidLookupInclude(Artist, "user-tags")
    ensures LoginCheck("user-tags", true) == Pass
    ensures LoginCheckAsWritten("user-tags") == Fail(UnboundSelf)
  {
  }

  /** Which includes a lookup admits besides the login rule: `_lookup` tests
      `valid_lookup_include` of its class; `lookup_artist` also admits
      "various-artists" when "releases" is among the includes. */
  datatype IncludeRule = Generic(entity: EntityName) | ArtistLookup(hasReleases: bool)

  predicate Admits(rule: IncludeRule, inc: string)
  {
    match rule
    case Generic(e) => ValidLookupInclude(e, inc)
    case ArtistLookup(hasReleases) => ValidLookupInclude(Artist, inc) || (hasReleases && inc == "various-artists")
  }

  /** One turn of the include loop: the login check, then the validity test. */
  function CheckInclude(rule: IncludeRule, inc: string, loggedIn: bool): (r: Outcome)
    ensures r.Pass? <==> LoginCheck(inc, loggedIn).Pass? && Admits(rule, inc)
    ensures r.Fail? && LoginCheck(inc, loggedIn).Pass? ==> r.error == InvalidInclude(inc)
  {
    match LoginCheck(inc, loggedIn)
    case Fail(e) => Fail(e)
    case Pass => if Admits(rule, inc) then Pass else Fail(InvalidInclude(inc))
  }

  /** The include loop: the first include that fails its turn raises. */
  function CheckIncludes(rule: IncludeRule, incs: seq<string>, loggedIn: bool): (r: Outcome)
    ensures r.Pass? <==> forall i :: 0 <= i < |incs| ==> CheckInclude(rule, incs[i], loggedIn).Pass?
    ensures r.Fail? ==> exists i :: (0 <= i < |incs| && r == CheckInclude(rule, incs[i], loggedIn)
      && forall j :: 0 <= j < i ==> CheckInclude(rule, incs[j], loggedIn).Pass?)
    decreases |incs|
  {
    if incs == [] then Pass
    else match CheckInclude(rule, incs[0], loggedIn)
      case Fail(e) => Fail(e)
      case Pass =>
        var r := CheckIncludes(rule, incs[1..], loggedIn);
        assert r.Fail? ==> exists i :: (1 <= i < |incs| && r == CheckInclude(rule, incs[i], loggedIn)
          && forall j :: 0 <= j < i ==> CheckInclude(rule, incs[j], loggedIn).Pass?);
        r
  }

  /** The checks of `_lookup` for class `e`: the identifier first, then each
      include; `None` means no includes. */
  function CheckLookup(e: EntityName, id: string, includes: Option<seq<string>>, loggedIn: bool): (r: Outcome)
    ensures !UuidLayout(id) ==> r == Fail(InvalidId)
    ensures r.Pass? <==> UuidLayout(id) && (includes.None? || forall i :: 0 <= i < |includes.value| ==>
      ValidLookupInclude(e, includes.value[i]) && (IsUserInclude(includes.value[i]) ==> loggedIn))
  {
    match CheckValidId(id)
    case Fail(err) => Fail(err)
    case Pass => CheckIncludes(Generic(e), if includes.None? then [] else includes.value, loggedIn)
  }

  /** The checks of `lookup_artist`: the identifier first, then each include,
      where "various-artists" passes only if "releases" is also requested. */
  function CheckArtistLookup(id: string, includes: Option<seq<string>>, loggedIn: bool): (r: Outcome)
    ensures !UuidLayout(id) ==> r == Fail(InvalidId)
    ensures r.Pass? <==> UuidLayout(id) && (includes.None? || forall i :: 0 <= i < |includes.value| ==>
      (ValidLookupInclude(Artist, includes.value[i])
       || (includes.value[i] == "various-artists" && "releases" in includes.value))
      && (IsUserInclude(includes.value[i]) ==> loggedIn))
  {
    match CheckValidId(id)
    case Fail(err) => Fail(err)
    case Pass =>
      var incs := if includes.None? then [] else includes.value;
      CheckIncludes(ArtistLookup("releases" in incs), incs, loggedIn)
  }

  /** The artist lookup admits everything the generic lookup of `Artist`
      admits. */
  lemma ArtistLookupExtendsGeneric(id: string, incs: seq<string>, loggedIn: bool)
    ensures CheckLookup(Artist, id, Some(incs), loggedIn).Pass? ==> CheckArtistLookup(id, Some(incs), loggedIn).Pass?
  {
    if CheckLookup(Artist, id, Some(incs), loggedIn).Pass? {
      forall i | 0 <= i < |incs|
        ensures ValidLookupInclude(Artist, incs[i]) && (IsUserInclude(incs[i]) ==> loggedIn)
      {
      }
    }
  }

  /** "various-artists" is rejected without "releases", and admitted next to
      it when the identifier and every other include pass. */
  lemma VariousArtistsNeedsReleases(id: string, incs: seq<string>, loggedIn: bool)
    ensures "various-artists" in incs && "releases" !in incs ==> CheckArtistLookup(id, Some(incs), loggedIn).Fail?
    ensures (UuidLayout(id) && "releases" in incs
             && forall i :: 0 <= i < |incs| ==>
                  incs[i] == "various-artists" || (ValidLookupInclude(Artist, incs[i]) && !IsUserInclude(incs[i])))
            ==> CheckArtistLookup(id, Some(incs), loggedIn).Pass?
  {
    VariousArtistsNeverValid(Artist);
    if "various-artists" in incs && "releases" !in incs {
      var i :| 0 <= i < |incs| && incs[i] == "various-artists";
      assert !ValidLookupInclude(Artist, incs[i]);
    }
    assert !IsUserInclude("various-artists") by {
      assert "various-artists"[..5][0] != "user-"[0];
    }
  }

  /** `_lookup` as written: its login check raises on every "user-" include
      whatever the login state, so the code passes exactly what the corrected
      check passes for a session that is not logged in. */
  lemma LookupAsWritten(e: EntityName, id: string, incs: seq<string>)
    ensures CheckLookup(e, id, Some(incs), false).Pass? <==>
      UuidLayout(id) && forall i :: 0 <= i < |incs| ==>
        LoginCheckAsWritten(incs[i]).Pass? && ValidLookupInclude(e, incs[i])
  {
  }

  /** `lookup_artist` as written, in the same way as `LookupAsWritten`. */
  lemma ArtistLookupAsWritten(id: string, incs: seq<string>)
    ensures CheckArtistLookup(id, Some(incs), false).Pass? <==>
      UuidLayout(id) && forall i :: 0 <= i < |incs| ==>
        LoginCheckAsWritten(incs[i]).Pass?
        && (ValidLookupInclude(Artist, incs[i]) || (incs[i] == "various-artists" && "releases" in incs))
  {
  }}
