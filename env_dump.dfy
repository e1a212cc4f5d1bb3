/**
 * Reading the text that `cmd.exe` prints after running the initialization script:
 * the error-marker check, and the environment dump that follows the separator line.
 */
module EnvDump {

  import opened Wrappers
  import opened Text
  import opened Errors

  /** Variable names (uppercased) to values. */
  type EnvMap = map<string, string>

  /** Twenty `=` followed by a suffix that no real environment line starts with. */
  const Separator: string := "====================_unique_separator_by_rust_crate_that_utilizes_vcvars"

  /** What the initialization script's output starts with when it failed. */
  const ErrorMarker: string := "[ERROR:"

  /** The two characters backslash and `n`, put between lines of a failure message. */
  const LineBreakEscape: string := "\\n"

  /**
   * The failure check done before parsing: output that starts with the error marker is a
   * `VcvarsFailed` whose message is the output's lines on one line. The script's exit
   * status is not consulted.
   */
  function CheckErrorMarker(stdout: string): (r: Option<VcvarsError>)
    ensures r.Some? <==> StartsWith(stdout, ErrorMarker)
    ensures r.Some? ==> r.value == VcvarsFailed(Join(Lines(stdout), LineBreakEscape))
    ensures r.Some? ==> '\n' !in r.value.output
  {
    if StartsWith(stdout, ErrorMarker) then
      JoinOmits(Lines(stdout), LineBreakEscape, '\n');
      Some(VcvarsFailed(Join(Lines(stdout), LineBreakEscape)))
    else None
  }

  // ---------------------------------------------------------------------------
  // Specification of the parse

  /** The index of the first line that starts with `sep`, or `|lines|`. */
  function SeparatorIndex(sep: string, lines: seq<string>): (k: nat)
    ensures k <= |lines|
    ensures forall j :: 0 <= j < k ==> !StartsWith(lines[j], sep)
    ensures k < |lines| ==> StartsWith(lines[k], sep)
    decreases |lines|
  {
    if lines == [] then 0
    else if StartsWith(lines[0], sep) then 0
    else 1 + SeparatorIndex(sep, lines[1..])
  }

  /** The entry a line after the separator contributes: uppercased name and value, if it has a `=`. */
  function Entry(line: string): (r: Option<(string, string)>)
    ensures r.Some? <==> '=' in line
  {
    match SplitOnce(line, '=')
    case None => None
    case Some((name, value)) => Some((Upper(name), value))
  }

  /** Whether `line` contributes an entry for `key`. */
  predicate Defines(line: string, key: string) {
    Entry(line).Some? && Entry(line).value.0 == key
  }

  /** `m` after inserting the entry `line` contributes, if any. */
  function AddLine(m: EnvMap, line: string): EnvMap {
    match Entry(line)
    case None => m
    case Some((key, value)) => m[key := value]
  }

  /** The map built by inserting the entries of `ls` in order. */
  function Collect(ls: seq<string>): EnvMap
    decreases |ls|
  {
    if ls == [] then map[] else AddLine(Collect(ls[..|ls| - 1]), ls[|ls| - 1])
  }

  lemma CollectSnoc(ls: seq<string>, line: string)
    ensures Collect(ls + [line]) == AddLine(Collect(ls), line)
  {
    assert (ls + [line])[..|ls|] == ls;
  }

  /** Extending a run of lines by the next one adds that line's entry. */
  lemma CollectStep(lines: seq<string>, k: int, i: int)
    requires 0 <= k < i < |lines|
    ensures Collect(lines[k + 1..i + 1]) == AddLine(Collect(lines[k + 1..i]), lines[i])
    ensures SplitOnce(lines[i], '=').None? ==> AddLine(Collect(lines[k + 1..i]), lines[i]) == Collect(lines[k + 1..i])
    ensures SplitOnce(lines[i], '=').Some? ==>
              AddLine(Collect(lines[k + 1..i]), lines[i])
              == Collect(lines[k + 1..i])[Upper(SplitOnce(lines[i], '=').value.0) := SplitOnce(lines[i], '=').value.1]
  {
    assert lines[k + 1..i + 1] == lines[k + 1..i] + [lines[i]];
    CollectSnoc(lines[k + 1..i], lines[i]);
  }

  /** The environment read from the lines of `cmd.exe`'s output, `sep` being the separator. */
  function ParseEnv(sep: string, lines: seq<string>): EnvMap {
    var k := SeparatorIndex(sep, lines);
    if k == |lines| then map[] else Collect(lines[k + 1..])
  }

  /** The outcome of reading `cmd.exe`'s whole output. */
  function ParseOutput(stdout: string): (r: Result<EnvMap, VcvarsError>)
    ensures r.Err? <==> StartsWith(stdout, ErrorMarker)
    ensures r.Err? ==> r.error.VcvarsFailed?
    ensures r.Ok? ==> r.value == ParseEnv(Separator, Lines(stdout))
  {
    match CheckErrorMarker(stdout)
    case Some(err) => Err(err)
    case None => Ok(ParseEnv(Separator, Lines(stdout)))
  }

  // ---------------------------------------------------------------------------
  // The parse loop

  /**
   * The loop over the output lines: skip until a line starts with the separator, then
   * insert each `name=value` line under its uppercased name.
   */
  method ParseEnvLines(sep: string, lines: seq<string>) returns (env: EnvMap)
    ensures env == ParseEnv(sep, lines)
  {
    env := map[];
    var mayCollect := false;
    ghost var k := SeparatorIndex(sep, lines);
    var i := 0;
    while i < |lines|
      invariant 0 <= i <= |lines|
      invariant !mayCollect ==> i <= k && env == map[]
      invariant mayCollect ==> k < i && env == Collect(lines[k + 1..i])
    {
      var line := lines[i];
      if mayCollect {
        CollectStep(lines, k, i);
        match SplitOnce(line, '=') {
          case Some((name, value)) =>
            env := env[Upper(name) := value];
          case None =>
        }
      } else if StartsWith(line, sep) {
        mayCollect := true;
        assert lines[k + 1..i + 1] == [];
      }
      i := i + 1;
    }
    if mayCollect {
      assert lines[k + 1..i] == lines[k + 1..];
    }
  }

  // ---------------------------------------------------------------------------
  // Properties of the parse

  /** A line without `=` contributes nothing; one with `=` is cut at its first `=`. */
  lemma SplitAtFirst(line: string, name: string, value: string)
    requires line == name + "=" + value && '=' !in name
    ensures SplitOnce(line, '=') == Some((name, value))
    ensures Entry(line) == Some((Upper(name), value))
  {
    var i := FirstIndex(line, '=');
    assert line[|name|] == '=';
    assert forall j :: 0 <= j < |name| ==> line[j] == name[j];
    assert i == |name|;
    assert line[..i] == name && line[i + 1..] == value;
  }

  /** A name is defined after collecting exactly when some line defines it. */
  lemma {:induction false} CollectHasKey(ls: seq<string>, key: string)
    ensures key in Collect(ls) <==> exists j :: 0 <= j < |ls| && Defines(ls[j], key)
    decreases |ls|
  {
    if ls != [] {
      var init := ls[..|ls| - 1];
      CollectHasKey(init, key);
      assert forall j :: 0 <= j < |init| ==> init[j] == ls[j];
      if key in Collect(ls) && !Defines(ls[|ls| - 1], key) {
        var j :| 0 <= j < |init| && Defines(init[j], key);
        assert Defines(ls[j], key);
      }
    }
  }

  /** When several lines define a name, the last of them gives its value. */
  lemma {:induction false} CollectLastWins(ls: seq<string>, key: string, j: nat)
    requires j < |ls| && Defines(ls[j], key)
    requires forall j' :: j < j' < |ls| ==> !Defines(ls[j'], key)
    ensures key in Collect(ls) && Collect(ls)[key] == Entry(ls[j]).value.1
    decreases |ls|
  {
    if j < |ls| - 1 {
      var init := ls[..|ls| - 1];
      assert init[j] == ls[j];
      assert forall j' :: j < j' < |init| ==> init[j'] == ls[j'];
      CollectLastWins(init, key, j);
      assert !Defines(ls[|ls| - 1], key);
    }
  }

  /** Every name in a collected map is already uppercase. */
  lemma {:induction false} CollectKeysUppercase(ls: seq<string>)
    ensures forall key <- Collect(ls) :: Upper(key) == key
    decreases |ls|
  {
    if ls != [] {
      CollectKeysUppercase(ls[..|ls| - 1]);
      match SplitOnce(ls[|ls| - 1], '=')
      case None =>
      case Some((name, value)) => UpperIdempotent(name);
    }
  }

  /**
   * Lines up to and including the first separator line contribute nothing: the result is
   * the collection of what follows that line, whatever the preamble holds.
   */
  lemma ParseEnvSkipsPreamble(sep: string, pre: seq<string>, sepLine: string, post: seq<string>)
    requires forall l <- pre :: !StartsWith(l, sep)
    requires StartsWith(sepLine, sep)
    ensures ParseEnv(sep, pre + [sepLine] + post) == Collect(post)
  {
    var lines := pre + [sepLine] + post;
    var k := SeparatorIndex(sep, lines);
    assert lines[|pre|] == sepLine;
    assert forall j :: 0 <= j < |pre| ==> lines[j] == pre[j] && pre[j] in pre;
    assert k == |pre|;
    assert lines[k + 1..] == post;
  }

  /** Without a separator line the environment is empty. */
  lemma ParseEnvWithoutSeparator(sep: string, lines: seq<string>)
    requires forall l <- lines :: !StartsWith(l, sep)
    ensures ParseEnv(sep, lines) == map[]
  {
  }

  /**
   * The names in the parsed environment are exactly those that some line after the first
   * separator line defines, and each is uppercase.
   */
  lemma ParseEnvHasKey(sep: string, lines: seq<string>, key: string)
    ensures key in ParseEnv(sep, lines) ==> Upper(key) == key
    ensures key in ParseEnv(sep, lines) <==>
              exists j :: SeparatorIndex(sep, lines) < j < |lines| && Defines(lines[j], key)
  {
    var k := SeparatorIndex(sep, lines);
    if k < |lines| {
      var post := lines[k + 1..];
      CollectKeysUppercase(post);
      CollectHasKey(post, key);
      assert ParseEnv(sep, lines) == Collect(post);
      if key in Collect(post) {
        var i :| 0 <= i < |post| && Defines(post[i], key);
        assert post[i] == lines[k + 1 + i];
      }
      if exists j :: k < j < |lines| && Defines(lines[j], key) {
        var j :| k < j < |lines| && Defines(lines[j], key);
        assert post[j - k - 1] == lines[j];
      }
    }
  }

  /** The value of a name is that of the last line, after the separator line, defining it. */
  lemma ParseEnvValue(sep: string, lines: seq<string>, key: string, j: nat)
    requires SeparatorIndex(sep, lines) < j < |lines| && Defines(lines[j], key)
    requires forall j' :: j < j' < |lines| ==> !Defines(lines[j'], key)
    ensures key in ParseEnv(sep, lines) && ParseEnv(sep, lines)[key] == Entry(lines[j]).value.1
  {
    var k := SeparatorIndex(sep, lines);
    var post := lines[k + 1..];
    assert post[j - k - 1] == lines[j];
    forall j' | j - k - 1 < j' < |post|
      ensures !Defines(post[j'], key)
    {
      assert post[j'] == lines[j' + k + 1];
    }
    CollectLastWins(post, key, j - k - 1);
  }

  /**
   * The shape of a typical dump: a preamble, the separator line (possibly with the trailing
   * space `cmd.exe` adds), a `name=value` line whose value may itself hold `=`, and a line
   * without `=`: only the uppercased name with its whole value comes out.
   */
  lemma ParseEnvTypicalDump(sep: string, pre: seq<string>, sepLine: string, name: string, value: string, bad: string)
    requires forall l <- pre :: !StartsWith(l, sep)
    requires StartsWith(sepLine, sep)
    requires '=' !in name && '=' !in bad
    ensures ParseEnv(sep, pre + [sepLine] + [name + "=" + value, bad]) == map[Upper(name) := value]
  {
    var post := [name + "=" + value, bad];
    ParseEnvSkipsPreamble(sep, pre, sepLine, post);
    SplitAtFirst(name + "=" + value, name, value);
    CollectSnoc([], post[0]);
    CollectSnoc([post[0]], bad);
    assert [] + [post[0]] == [post[0]];
    assert [post[0]] + [bad] == post;
  }
}
