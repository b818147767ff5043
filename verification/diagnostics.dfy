/** Extraction of a one-line diagnostic from the captured output of a provisioning
    command (`get_error_from_pacman`, `get_error_from_pacman_key` and
    `get_error_from_either` in src/docker.rs). The output is split on "\n"; the
    diagnostic is what follows a known prefix on the LAST line carrying that prefix,
    and the empty string when no line carries it. */
module Diagnostics {
  import opened Wrappers
  import opened Text

  /** Prefix of pacman's own error lines. */
  const PacmanPrefix: string := "error: "
  /** Prefix of pacman-key's (and makepkg's) error lines. */
  const PacmanKeyPrefix: string := "==> ERROR: "

  /** Line `k` carries `prefix` and no later line does. */
  ghost predicate IsLastWith(lines: seq<string>, prefix: string, k: int) {
    && 0 <= k < |lines|
    && StartsWith(lines[k], prefix)
    && forall j :: k < j < |lines| ==> !StartsWith(lines[j], prefix)
  }

  /** `filter_map(strip_prefix).last()` over the lines. */
  function LastStripped(lines: seq<string>, prefix: string): (r: Option<string>)
    ensures r.None? <==> forall i :: 0 <= i < |lines| ==> !StartsWith(lines[i], prefix)
    ensures r.Some? ==> exists k :: IsLastWith(lines, prefix, k) && r.value == lines[k][|prefix|..]
  {
    if |lines| == 0 then None
    else
      var last := |lines| - 1;
      match StripPrefix(lines[last], prefix)
      case Some(rest) =>
        assert IsLastWith(lines, prefix, last);
        Some(rest)
      case None =>
        var r := LastStripped(lines[..last], prefix);
        LastWithSkipsUnmarkedLine(lines, prefix, r);
        r
  }

  lemma LastWithSkipsUnmarkedLine(lines: seq<string>, prefix: string, r: Option<string>)
    requires |lines| > 0 && !StartsWith(lines[|lines| - 1], prefix)
    requires var init := lines[..|lines| - 1];
      && (r.None? <==> forall i :: 0 <= i < |init| ==> !StartsWith(init[i], prefix))
      && (r.Some? ==> exists k :: IsLastWith(init, prefix, k) && r.value == init[k][|prefix|..])
    ensures r.None? <==> forall i :: 0 <= i < |lines| ==> !StartsWith(lines[i], prefix)
    ensures r.Some? ==> exists k :: IsLastWith(lines, prefix, k) && r.value == lines[k][|prefix|..]
  {
    var init := lines[..|lines| - 1];
    assert forall i :: 0 <= i < |init| ==> init[i] == lines[i];
    if r.Some? {
      var k :| IsLastWith(init, prefix, k) && r.value == init[k][|prefix|..];
      assert IsLastWith(lines, prefix, k);
    }
  }

  /** What the source promises of an extraction: `r` is the text after `prefix` on
      the last "\n"-separated line of `s` that starts with it, or "" if no line does. */
  ghost predicate Extracted(s: string, prefix: string, r: string) {
    var lines := Split(s, '\n');
    || ((forall i :: 0 <= i < |lines| ==> !StartsWith(lines[i], prefix)) && r == "")
    || (exists k :: IsLastWith(lines, prefix, k) && r == lines[k][|prefix|..])
  }

  /** The last line carrying a prefix is determined, so an extraction is too. */
  lemma ExtractedIsUnique(s: string, prefix: string, r1: string, r2: string)
    requires Extracted(s, prefix, r1) && Extracted(s, prefix, r2)
    ensures r1 == r2
  {
    var lines := Split(s, '\n');
    if exists k :: IsLastWith(lines, prefix, k) && r1 == lines[k][|prefix|..] {
      var k1 :| IsLastWith(lines, prefix, k1) && r1 == lines[k1][|prefix|..];
      var k2 :| IsLastWith(lines, prefix, k2) && r2 == lines[k2][|prefix|..];
      assert k1 == k2;
    }
  }

  function ErrorFrom(s: string, prefix: string): (r: string)
    ensures Extracted(s, prefix, r)
  {
    LastStripped(Split(s, '\n'), prefix).GetOr("")
  }

  /** `get_error_from_pacman`. */
  function ErrorFromPacman(s: string): (r: string)
    ensures Extracted(s, PacmanPrefix, r)
  {
    ErrorFrom(s, PacmanPrefix)
  }

  /** `get_error_from_pacman_key`. */
  function ErrorFromPacmanKey(s: string): (r: string)
    ensures Extracted(s, PacmanKeyPrefix, r)
  {
    ErrorFrom(s, PacmanKeyPrefix)
  }

  /** `get_error_from_either`: pacman's diagnostic when it is non-empty, otherwise
      pacman-key's (which may itself be empty). */
  function ErrorFromEither(s: string): (r: string)
    ensures || (Extracted(s, PacmanPrefix, r) && r != "")
            || (Extracted(s, PacmanPrefix, "") && Extracted(s, PacmanKeyPrefix, r))
  {
    var ret := ErrorFromPacman(s);
    if ret != "" then ret else ErrorFromPacmanKey(s)
  }

  /** Of two error lines, the later one is reported, whatever follows it. */
  lemma {:induction false} LastMatchingLineWins(x: string, y: string, z: string)
    requires '\n' !in x && '\n' !in y && '\n' !in z
    requires !StartsWith(z, PacmanPrefix)
    ensures ErrorFromPacman(PacmanPrefix + x + "\n" + PacmanPrefix + y + "\n" + z) == y
  {
    var a, b := PacmanPrefix + x, PacmanPrefix + y;
    var s := PacmanPrefix + x + "\n" + PacmanPrefix + y + "\n" + z;
    var lines := [a, b, z];
    assert '\n' !in PacmanPrefix;
    NotInConcat(PacmanPrefix, x, '\n');
    NotInConcat(PacmanPrefix, y, '\n');
    Split3(a, b, z, '\n');
    assert s == a + ['\n'] + b + ['\n'] + z;
    assert StartsWith(b, PacmanPrefix) by { assert b[..|PacmanPrefix|] == PacmanPrefix; }
    assert b[|PacmanPrefix|..] == y;
    ErrorIsUnique(s, PacmanPrefix, ErrorFromPacman(s), y, lines, 1);
  }

  /** A bare "error: " line yields an empty pacman diagnostic, which sends
      `ErrorFromEither` on to the pacman-key prefix. */
  lemma {:induction false} EmptyPacmanFallsBackToKey(x: string)
    requires '\n' !in x
    ensures ErrorFromEither(PacmanKeyPrefix + x + "\n" + PacmanPrefix) == x
  {
    var a := PacmanKeyPrefix + x;
    var s := PacmanKeyPrefix + x + "\n" + PacmanPrefix;
    var lines := [a, PacmanPrefix];
    assert '\n' !in PacmanKeyPrefix && '\n' !in PacmanPrefix;
    NotInConcat(PacmanKeyPrefix, x, '\n');
    SplitAtSeparator(a, '\n', PacmanPrefix);
    SplitWithoutSeparator(PacmanPrefix, '\n');
    assert s == a + ['\n'] + PacmanPrefix;
    assert StartsWith(PacmanPrefix, PacmanPrefix);
    ErrorIsUnique(s, PacmanPrefix, ErrorFromPacman(s), "", lines, 1);
    assert StartsWith(a, PacmanKeyPrefix) by { assert a[..|PacmanKeyPrefix|] == PacmanKeyPrefix; }
    assert a[|PacmanKeyPrefix|..] == x;
    assert !StartsWith(PacmanPrefix, PacmanKeyPrefix);
    ErrorIsUnique(s, PacmanKeyPrefix, ErrorFromPacmanKey(s), x, lines, 0);
  }

  lemma ErrorIsUnique(s: string, prefix: string, r: string, expected: string, lines: seq<string>, k: int)
    requires Split(s, '\n') == lines
    requires Extracted(s, prefix, r)
    requires IsLastWith(lines, prefix, k) && expected == lines[k][|prefix|..]
    ensures r == expected
  {
    ExtractedIsUnique(s, prefix, r, expected);
  }
}
