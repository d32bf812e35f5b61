// `_InfinarioBase.__init__`: the target URL is matched against the pattern
//   ^(?:(https?:)?//)?([^/]+)(/*)$
// and rebuilt as (scheme or "https:") + "//" + host + "/".
module Target {
  import opened Wrappers
  import opened Errors

  const DefaultTarget := "https://api.infinario.com/"

  predicate HasPrefix(s: string, p: string) {
    |p| <= |s| && s[..|p|] == p
  }

  /** The length of the longest prefix of `s` made of slashes (`slash`) or of non-slashes (`!slash`). */
  function RunLength(s: string, slash: bool): (n: nat)
    ensures n <= |s|
    ensures forall i :: 0 <= i < n ==> (s[i] == '/') == slash
    ensures n < |s| ==> (s[n] == '/') != slash
  {
    if s == [] || (s[0] == '/') != slash then 0 else 1 + RunLength(s[1..], slash)
  }

  /**
   * The whole of `s` is what the pattern's tail accepts with a host group of
   * `n` characters: `n` non-slashes, then only slashes, except that Python's
   * `$` also lets a final newline follow at least one slash.
   */
  predicate HostForm(s: string, n: nat) {
    0 < n <= |s| && (forall i :: 0 <= i < n ==> s[i] != '/') &&
    forall i :: n <= i < |s| ==> s[i] == '/' || (i == |s| - 1 && i > n && s[i] == '\n')
  }

  /** Whatever split `HostForm` admits is the one the two greedy runs find. */
  lemma HostFormRuns(s: string, n: nat)
    requires HostForm(s, n)
    ensures RunLength(s, false) == n
    ensures var end := n + RunLength(s[n..], true);
            end == |s| || (end == |s| - 1 && s[end] == '\n')
  {
    var r := RunLength(s[n..], true);
    if n + r < |s| {
      assert s[n..][r] == s[n + r];
    }
  }

  // The pattern's tail ([^/]+)(/*)$ matched at the start of `s`, giving the host group.
  /**
   * Both runs are greedy, and giving characters back never helps, since a
   * shorter run leaves a character that neither the next run nor `$` takes.
   * Python's `$` also matches just before a final newline.
   */
  function MatchHost(s: string): (host: Option<string>)
    ensures host.Some? ==> 0 < |host.value| <= |s| && host.value == s[..|host.value|] && '/' !in host.value
    ensures host.Some? ==> HostForm(s, |host.value|)
    ensures host.None? ==> forall n :: !HostForm(s, n)
  {
    var h := RunLength(s, false);
    var end := h + RunLength(s[h..], true);
    if h > 0 && (end == |s| || (end == |s| - 1 && s[end] == '\n')) then
      assert forall i | h <= i < end :: s[i] == s[h..][i - h];
      Some(s[..h])
    else
      assert forall n :: HostForm(s, n) ==> n == h && (end == |s| || (end == |s| - 1 && s[end] == '\n')) by {
        forall n | HostForm(s, n) ensures n == h && (end == |s| || (end == |s| - 1 && s[end] == '\n')) {
          HostFormRuns(s, n);
        }
      }
      None
  }

  /** `t` is `prefix`, then `host`, then what `HostForm` allows after a host. */
  predicate Spells(t: string, prefix: string, host: string) {
    HasPrefix(t, prefix) && HostForm(t[|prefix|..], |host|) && t[|prefix|..][..|host|] == host
  }

  /** One alternative of the pattern: the literal `prefix`, then the host and its slashes. */
  function TryPrefix(t: string, prefix: string): (host: Option<string>)
    ensures host.Some? ==> host.value != [] && '/' !in host.value && Spells(t, prefix, host.value)
    ensures host.None? ==> forall h :: !Spells(t, prefix, h)
  {
    if HasPrefix(t, prefix) then MatchHost(t[|prefix|..]) else None
  }

  /** The groups of a successful match: the optional scheme and the host. */
  datatype Match = Match(scheme: Option<string>, host: string)

  /**
   * `re.match` of the whole pattern: the optional prefix is tried first
   * (with its scheme, then without), and left out only when that fails.
   */
  function MatchTarget(t: string): (m: Option<Match>)
    ensures m.Some? ==> m.value.host != [] && '/' !in m.value.host
    ensures m.Some? && m.value.scheme.Some? ==> m.value.scheme.value in {"https:", "http:"}
    ensures m.Some? && m.value.scheme.Some? ==> Spells(t, m.value.scheme.value + "//", m.value.host)
    ensures m.Some? && m.value.scheme.None? ==> Spells(t, "//", m.value.host) || Spells(t, "", m.value.host)
    ensures m.None? ==> forall host ::
              !Spells(t, "https://", host) && !Spells(t, "http://", host) && !Spells(t, "//", host) && !Spells(t, "", host)
  {
    assert "https:" + "//" == "https://" && "http:" + "//" == "http://";
    match TryPrefix(t, "https://")
    case Some(h) => Some(Match(Some("https:"), h))
    case None =>
      match TryPrefix(t, "http://")
      case Some(h) => Some(Match(Some("http:"), h))
      case None =>
        match TryPrefix(t, "//")
        case Some(h) => Some(Match(None, h))
        case None =>
          match TryPrefix(t, "")
          case Some(h) => Some(Match(None, h))
          case None => None
  }

  /** `x` is a host without slashes followed by exactly one slash. */
  predicate HostSlash(x: string) {
    |x| >= 2 && x[|x| - 1] == '/' && '/' !in x[..|x| - 1]
  }

  /** A normalised target: an http or https scheme, a host and one trailing slash. */
  predicate Canonical(u: string) {
    (HasPrefix(u, "https://") && HostSlash(u[8..])) || (HasPrefix(u, "http://") && HostSlash(u[7..]))
  }

  /**
   * The target `_InfinarioBase.__init__` stores. A falsy target (None or
   * "") gives the default. A target that does not match raises ValueError
   * without a logger; with one, the error is logged and the following
   * `match.group` fails on None.
   */
  function Normalise(target: Option<string>, hasLogger: bool): (r: Result<string, Error>)
    ensures r.Ok? ==> Canonical(r.value)
    ensures target.None? || target.value == "" ==> r == Ok(DefaultTarget)
    ensures r.Err? <==> target.Some? && target.value != "" && MatchTarget(target.value).None?
    ensures r.Err? ==> r.error == if hasLogger then AttributeError else ValueError(InvalidTargetUrl(target.value))
  {
    if target.None? || target.value == "" then
      DefaultIsCanonical();
      Ok(DefaultTarget)
    else match MatchTarget(target.value)
      case None => if hasLogger then Err(AttributeError) else Err(ValueError(InvalidTargetUrl(target.value)))
      case Some(m) =>
        RebuiltIsCanonical(m.scheme.GetOr("https:"), m.host);
        Ok(m.scheme.GetOr("https:") + "//" + m.host + "/")
  }

  /** An http or https scheme, a slash-free host and one slash make a canonical target. */
  lemma RebuiltIsCanonical(scheme: string, host: string)
    requires scheme == "https:" || scheme == "http:"
    requires host != [] && '/' !in host
    ensures Canonical(scheme + "//" + host + "/")
  {
    var u := scheme + "//" + host + "/";
    var n := |scheme| + 2;
    assert u[..n] == scheme + "//";
    assert u[n..] == host + "/";
    assert (host + "/")[..|host|] == host;
  }

  lemma DefaultIsCanonical()
    ensures Canonical(DefaultTarget)
  {
    assert DefaultTarget[8..] == "api.infinario.com/";
    assert DefaultTarget[8..][..17] == "api.infinario.com";
  }

  function Slashes(k: nat): (s: string)
    ensures |s| == k && forall i :: 0 <= i < k ==> s[i] == '/'
  {
    if k == 0 then "" else "/" + Slashes(k - 1)
  }

  /** A run of non-slashes stops at the first slash, or at the end. */
  lemma {:induction false} NonSlashRun(h: string, x: string)
    requires '/' !in h
    requires x == [] || x[0] == '/'
    ensures RunLength(h + x, false) == |h|
  {
    if h != [] {
      assert (h + x)[1..] == h[1..] + x;
      NonSlashRun(h[1..], x);
    }
  }

  /** A run of slashes stops at the first non-slash, or at the end. */
  lemma {:induction false} SlashRun(k: nat, y: string)
    requires y == [] || y[0] != '/'
    ensures RunLength(Slashes(k) + y, true) == k
  {
    if k > 0 {
      assert (Slashes(k) + y)[1..] == Slashes(k - 1) + y;
      SlashRun(k - 1, y);
    }
  }

  /** A host followed by any number of slashes yields that host. */
  lemma HostThenSlashes(h: string, k: nat)
    requires h != [] && '/' !in h
    ensures MatchHost(h + Slashes(k)) == Some(h)
  {
    var s := h + Slashes(k);
    NonSlashRun(h, Slashes(k));
    assert s[|h|..] == Slashes(k) + "";
    SlashRun(k, "");
    assert s[..|h|] == h;
  }

  /**
   * Python's `$` also matches before a final newline: after at least one
   * slash, a trailing "\n" is accepted and dropped with the slashes.
   */
  lemma TrailingNewlineDropped(h: string, k: nat)
    requires h != [] && '/' !in h && k > 0
    ensures MatchHost(h + Slashes(k) + "\n") == Some(h)
  {
    var s := h + Slashes(k) + "\n";
    assert s == h + (Slashes(k) + "\n");
    NonSlashRun(h, Slashes(k) + "\n");
    assert s[|h|..] == Slashes(k) + "\n";
    SlashRun(k, "\n");
    assert s[..|h|] == h;
  }

  lemma NotPrefixAt(t: string, p: string, i: nat)
    requires i < |p| && i < |t| && t[i] != p[i]
    ensures !HasPrefix(t, p)
  {
    if |p| <= |t| { assert t[..|p|][i] != p[i]; }
  }

  /** A string of slashes alone holds no host. */
  lemma NoHostInSlashes(s: string)
    requires forall i :: 0 <= i < |s| ==> s[i] == '/'
    ensures MatchHost(s).None?
  {
    assert RunLength(s, false) == 0;
  }

  /**
   * A host, then slashes, never takes a prefixed alternative: the slash
   * that would end the scheme falls after the host, and no host is left.
   */
  lemma MatchBare(h: string, k: nat)
    requires h != [] && '/' !in h
    ensures MatchTarget(h + Slashes(k)) == Some(Match(None, h))
  {
    var t := h + Slashes(k);
    HostThenSlashes(h, k);
    assert t[0] == h[0];
    NotPrefixAt(t, "//", 0);
    if HasPrefix(t, "https://") {
      assert t[..8][6] == '/';
      assert forall j | 0 <= j < |h| :: t[j] == h[j] != '/';
      assert |h| <= 6;
      NoHostInSlashes(t[8..]);
    }
    if HasPrefix(t, "http://") {
      assert t[..7][5] == '/';
      assert forall j | 0 <= j < |h| :: t[j] == h[j] != '/';
      assert |h| <= 5;
      NoHostInSlashes(t[7..]);
    }
  }

  lemma MatchDoubleSlash(h: string, k: nat)
    requires h != [] && '/' !in h
    ensures MatchTarget("//" + h + Slashes(k)) == Some(Match(None, h))
  {
    var t := "//" + h + Slashes(k);
    HostThenSlashes(h, k);
    assert t[0] == '/';
    NotPrefixAt(t, "https://", 0);
    NotPrefixAt(t, "http://", 0);
    assert t[2..] == h + Slashes(k);
    assert t[..2] == "//";
  }

  lemma MatchHttps(h: string, k: nat)
    requires h != [] && '/' !in h
    ensures MatchTarget("https://" + h + Slashes(k)) == Some(Match(Some("https:"), h))
  {
    var t := "https://" + h + Slashes(k);
    HostThenSlashes(h, k);
    assert t[8..] == h + Slashes(k);
    assert t[..8] == "https://";
  }

  lemma MatchHttp(h: string, k: nat)
    requires h != [] && '/' !in h
    ensures MatchTarget("http://" + h + Slashes(k)) == Some(Match(Some("http:"), h))
  {
    var t := "http://" + h + Slashes(k);
    HostThenSlashes(h, k);
    assert t[4] == ':';
    NotPrefixAt(t, "https://", 4);
    assert t[7..] == h + Slashes(k);
    assert t[..7] == "http://";
  }

  /** A slash inside the host, as in "ab/c", is no target: the constructor raises ValueError. */
  lemma NormaliseRejectsInnerSlash()
    ensures Normalise(Some("ab/c"), false) == Err(ValueError(InvalidTargetUrl("ab/c")))
  {
    var t := "ab/c";
    assert RunLength(t, false) == 2 by {
      assert t[1..] == "b/c" && t[2..] == "/c";
    }
    assert t[2..] == "/c" && "/c"[1..] == "c";
    assert RunLength(t[2..], true) == 1;
    NotPrefixAt(t, "https://", 0);
    NotPrefixAt(t, "http://", 0);
    NotPrefixAt(t, "//", 0);
  }

  /** The target a successful match is rebuilt into. */
  lemma NormaliseMatched(t: string, m: Match, hasLogger: bool)
    requires t != [] && MatchTarget(t) == Some(m)
    ensures Normalise(Some(t), hasLogger) == Ok(m.scheme.GetOr("https:") + "//" + m.host + "/")
  {
  }

  /** The spellings the pattern accepts for a host, and what each becomes. */
  lemma NormaliseAcceptedForms(h: string, k: nat, hasLogger: bool)
    requires h != [] && '/' !in h
    ensures Normalise(Some(h + Slashes(k)), hasLogger) == Ok("https://" + h + "/")
    ensures Normalise(Some("//" + h + Slashes(k)), hasLogger) == Ok("https://" + h + "/")
    ensures Normalise(Some("https://" + h + Slashes(k)), hasLogger) == Ok("https://" + h + "/")
    ensures Normalise(Some("http://" + h + Slashes(k)), hasLogger) == Ok("http://" + h + "/")
  {
    assert "https:" + "//" + h + "/" == "https://" + h + "/";
    assert "http:" + "//" + h + "/" == "http://" + h + "/";
    MatchBare(h, k);
    NormaliseMatched(h + Slashes(k), Match(None, h), hasLogger);
    MatchDoubleSlash(h, k);
    NormaliseMatched("//" + h + Slashes(k), Match(None, h), hasLogger);
    MatchHttps(h, k);
    NormaliseMatched("https://" + h + Slashes(k), Match(Some("https:"), h), hasLogger);
    MatchHttp(h, k);
    NormaliseMatched("http://" + h + Slashes(k), Match(Some("http:"), h), hasLogger);
  }

  /** A canonical target is left as it is. */
  lemma NormaliseCanonical(u: string, hasLogger: bool)
    requires Canonical(u)
    ensures Normalise(Some(u), hasLogger) == Ok(u)
  {
    var n := if HasPrefix(u, "https://") then 8 else 7;
    if n == 8 {
      assert u[..8][4] == 's';
      NotPrefixAt(u, "http://", 4);
    }
    var x := u[n..];
    var h := x[..|x| - 1];
    assert h != [] && '/' !in h;
    assert Slashes(1) == "/";
    assert u == u[..n] + h + Slashes(1);
    NormaliseAcceptedForms(h, 1, hasLogger);
    if n == 8 {
      assert u[..n] == "https://";
    } else {
      assert u[..n] == "http://";
    }
  }

  /** Normalising a normalised target changes nothing. */
  lemma NormaliseIdempotent(target: Option<string>, hasLogger: bool, hasLogger': bool)
    requires Normalise(target, hasLogger).Ok?
    ensures Normalise(Some(Normalise(target, hasLogger).value), hasLogger') == Normalise(target, hasLogger)
  {
    NormaliseCanonical(Normalise(target, hasLogger).value, hasLogger');
  }

  /** "//nope", a target of the library's own test, becomes "https://nope/". */
  lemma NormaliseSchemeRelative()
    ensures Normalise(Some("//nope"), true) == Ok("https://nope/")
  {
    var h := "nope";
    assert '/' !in h by { assert forall i | 0 <= i < |h| :: h[i] != '/'; }
    MatchDoubleSlash(h, 0);
    assert "//" + h + Slashes(0) == "//nope";
    NormaliseMatched("//nope", Match(None, h), true);
    assert Match(None, h).scheme.GetOr("https:") + "//" + h + "/" == "https://nope/";
  }

  /** "nope/", the other target of that test, becomes "https://nope/" too. */
  lemma NormaliseBareHost()
    ensures Normalise(Some("nope/"), true) == Ok("https://nope/")
  {
    var h := "nope";
    assert '/' !in h by { assert forall i | 0 <= i < |h| :: h[i] != '/'; }
    MatchBare(h, 1);
    assert h + Slashes(1) == "nope/";
    NormaliseMatched("nope/", Match(None, h), true);
    assert Match(None, h).scheme.GetOr("https:") + "//" + h + "/" == "https://nope/";
  }
}
