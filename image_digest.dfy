/**
 * Extraction of an image digest from the text a container image pull prints:
 * the line that starts with the label "Digest: " gives the digest, returned
 * with an "@" in front so that it can be appended to an image name.
 */
module Fix {
  import opened Wrappers

  const Label := "Digest: "

  datatype DigestError = NoDigest

  datatype DigestResult = Digest(digest: string) | Failed(error: DigestError)

  /** The lines of `s`: the pieces between newlines, the last one possibly empty. */
  function Lines(s: string): (ls: seq<string>)
    ensures |ls| >= 1
    ensures forall i :: 0 <= i < |ls| ==> '\n' !in ls[i]
  {
    if s == [] then [""]
    else
      var rest := Lines(s[1..]);
      if s[0] == '\n' then [""] + rest
      else [[s[0]] + rest[0]] + rest[1..]
  }

  /** The lines put back together with a newline between each two. */
  function Join(ls: seq<string>): string
    requires |ls| >= 1
  {
    if |ls| == 1 then ls[0] else ls[0] + "\n" + Join(ls[1..])
  }

  lemma {:induction false} JoinCons(c: char, ls: seq<string>)
    requires |ls| >= 1
    ensures Join([[c] + ls[0]] + ls[1..]) == [c] + Join(ls)
  {
  }

  /** Splitting into lines and joining them back gives the text again. */
  lemma {:induction false} JoinLines(s: string)
    ensures Join(Lines(s)) == s
  {
    if s != [] {
      var rest := Lines(s[1..]);
      JoinLines(s[1..]);
      if s[0] == '\n' {
        assert ([""] + rest)[1..] == rest;
      } else {
        JoinCons(s[0], rest);
      }
      assert s == [s[0]] + s[1..];
    }
  }

  /** Text without a newline is a single line. */
  lemma {:induction false} LinesOfLine(s: string)
    requires '\n' !in s
    ensures Lines(s) == [s]
  {
    if s != [] {
      LinesOfLine(s[1..]);
      assert s == [s[0]] + s[1..];
    }
  }

  /** The lines of two texts joined by a newline are the lines of each, in order. */
  lemma {:induction false} LinesAppend(a: string, b: string)
    ensures Lines(a + "\n" + b) == Lines(a) + Lines(b)
  {
    var s := a + "\n" + b;
    if a == [] {
      assert s == "\n" + b;
      assert s[1..] == b;
    } else {
      assert s[0] == a[0];
      assert s[1..] == a[1..] + "\n" + b;
      LinesAppend(a[1..], b);
    }
  }

  /** Splitting newline-free lines joined back together gives the lines again. */
  lemma {:induction false} LinesJoin(ls: seq<string>)
    requires |ls| >= 1
    requires forall i :: 0 <= i < |ls| ==> '\n' !in ls[i]
    ensures Lines(Join(ls)) == ls
  {
    LinesOfLine(ls[0]);
    if |ls| > 1 {
      LinesJoin(ls[1..]);
      LinesAppend(ls[0], Join(ls[1..]));
      assert ls == [ls[0]] + ls[1..];
    }
  }

  predicate IsDigestLine(line: string)
  {
    |Label| <= |line| && line[..|Label|] == Label
  }

  /** The text after the label on the first digest line. */
  function FirstDigest(ls: seq<string>): (r: Option<string>)
    ensures r.Some? <==> exists line :: line in ls && IsDigestLine(line)
    ensures r.Some? ==> Label + r.value in ls
  {
    if ls == [] then None
    else if IsDigestLine(ls[0]) then
      assert Label + ls[0][|Label|..] == ls[0];
      Some(ls[0][|Label|..])
    else
      var r := FirstDigest(ls[1..]);
      assert forall line :: line in ls ==> line == ls[0] || line in ls[1..];
      r
  }

  /** A digest line after lines that carry none decides the result, whatever follows. */
  lemma {:induction false} FirstDigestAfter(before: seq<string>, line: string, after: seq<string>)
    requires forall l :: l in before ==> !IsDigestLine(l)
    requires IsDigestLine(line)
    ensures FirstDigest(before + [line] + after) == Some(line[|Label|..])
  {
    if before != [] {
      assert (before + [line] + after)[1..] == before[1..] + [line] + after;
      FirstDigestAfter(before[1..], line, after);
    }
  }

  /** The digest of a pull's output: "@" and the text after the label on its first digest line. */
  function GetImageDigest(output: string): (r: DigestResult)
    ensures r.Digest? <==> exists line :: line in Lines(output) && IsDigestLine(line)
    ensures r.Digest? ==> |r.digest| >= 1 && r.digest[0] == '@' && '\n' !in r.digest
    ensures r.Digest? ==> Label + r.digest[1..] in Lines(output)
  {
    match FirstDigest(Lines(output))
    case None => Failed(NoDigest)
    case Some(d) =>
      assert '\n' !in Label + d;
      assert ("@" + d)[1..] == d;
      Digest("@" + d)
  }

  /**
   * A line "Digest: x" between lines that carry no digest gives "@x": the
   * lines before it and whatever comes after it do not matter.
   */
  lemma DigestAmidOutput(before: string, x: string, after: string)
    requires forall l :: l in Lines(before) ==> !IsDigestLine(l)
    requires '\n' !in x
    ensures GetImageDigest(before + "\n" + Label + x + "\n" + after) == Digest("@" + x)
  {
    var line := Label + x;
    assert '\n' !in line;
    LinesOfLine(line);
    LinesAppend(line, after);
    LinesAppend(before, line + "\n" + after);
    assert before + "\n" + Label + x + "\n" + after == before + "\n" + (line + "\n" + after);
    assert Lines(before + "\n" + Label + x + "\n" + after) == Lines(before) + [line] + Lines(after);
    assert line[..|Label|] == Label;
    FirstDigestAfter(Lines(before), line, Lines(after));
    assert line[|Label|..] == x;
  }
}
