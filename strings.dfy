/**
 * The few operations of Go's `strings` package that the configuration code
 * uses, on `string` = `seq<char>`: HasPrefix, HasSuffix, TrimSuffix, Join
 * with a newline separator, and Split on a newline (the reference used to
 * read an error text back as its lines).
 */
module Strings {

  predicate HasPrefix(s: string, prefix: string) {
    |prefix| <= |s| && s[..|prefix|] == prefix
  }

  predicate HasSuffix(s: string, suffix: string) {
    |suffix| <= |s| && s[|s| - |suffix|..] == suffix
  }

  /** strings.TrimSuffix: removes one copy of `suffix` from the end, if present. */
  function TrimSuffix(s: string, suffix: string): (r: string)
    ensures HasSuffix(s, suffix) ==> r + suffix == s
    ensures !HasSuffix(s, suffix) ==> r == s
  {
    if HasSuffix(s, suffix) then s[..|s| - |suffix|] else s
  }

  /** No line of `lines` contains a newline character. */
  predicate SingleLines(lines: seq<string>) {
    forall i :: 0 <= i < |lines| ==> '\n' !in lines[i]
  }

  /** strings.Join(lines, "\n"). */
  function Join(lines: seq<string>): string {
    if |lines| == 0 then ""
    else if |lines| == 1 then lines[0]
    else Join(lines[..|lines| - 1]) + "\n" + lines[|lines| - 1]
  }

  /** The text obtained by appending `line + "\n"` for each line in turn. */
  function Terminated(lines: seq<string>): (r: string)
    ensures |r| >= |lines|
    ensures lines != [] ==> HasSuffix(r, "\n")
  {
    if lines == [] then ""
    else Terminated(lines[..|lines| - 1]) + lines[|lines| - 1] + "\n"
  }

  /** Appending one more line with its newline extends the text by exactly that. */
  lemma TerminatedAppend(lines: seq<string>, line: string)
    ensures Terminated(lines + [line]) == Terminated(lines) + line + "\n"
  {
    assert (lines + [line])[..|lines|] == lines;
  }

  /** strings.Split(s, "\n"): the maximal newline-free pieces of `s`, in order. */
  function Split(s: string): (r: seq<string>)
    ensures |r| >= 1
    ensures SingleLines(r)
  {
    if s == [] then [""]
    else if s[0] == '\n' then [""] + Split(s[1..])
    else
      var rest := Split(s[1..]);
      [[s[0]] + rest[0]] + rest[1..]
  }

  /** Appending each line with its own newline is joining them and adding one newline. */
  lemma {:induction false} TerminatedIsJoined(lines: seq<string>)
    requires lines != []
    ensures Terminated(lines) == Join(lines) + "\n"
  {
    if |lines| > 1 {
      var init := lines[..|lines| - 1];
      TerminatedIsJoined(init);
      assert init[..|init| - 1] == lines[..|lines| - 2];
    }
  }

  /** Trimming the final newline of an accumulated text leaves the joined lines. */
  lemma TrimTerminated(lines: seq<string>)
    requires lines != []
    ensures TrimSuffix(Terminated(lines), "\n") == Join(lines)
  {
    TerminatedIsJoined(lines);
    var t := Join(lines) + "\n";
    assert t[|t| - 1..] == "\n";
    assert t[..|t| - 1] == Join(lines);
  }

  /** A newline in the middle splits the text into the pieces on either side. */
  lemma {:induction false} SplitAround(a: string, b: string)
    ensures Split(a + "\n" + b) == Split(a) + Split(b)
  {
    var s := a + "\n" + b;
    if a == [] {
      assert s == "\n" + b && s[1..] == b;
    } else {
      assert s[0] == a[0];
      assert s[1..] == a[1..] + "\n" + b;
      SplitAround(a[1..], b);
    }
  }

  lemma {:induction false} SplitSingle(s: string)
    requires '\n' !in s
    ensures Split(s) == [s]
  {
    if s != [] {
      SplitSingle(s[1..]);
      assert [s[0]] + s[1..] == s;
    }
  }

  /** Round trip: splitting the newline-joined lines gives the lines back. */
  lemma {:induction false} SplitJoin(lines: seq<string>)
    requires lines != [] && SingleLines(lines)
    ensures Split(Join(lines)) == lines
  {
    if |lines| == 1 {
      SplitSingle(lines[0]);
    } else {
      var init := lines[..|lines| - 1];
      SplitJoin(init);
      SplitAround(Join(init), lines[|lines| - 1]);
      SplitSingle(lines[|lines| - 1]);
      assert init + [lines[|lines| - 1]] == lines;
    }
  }

  /** A join of lines that are not empty and hold no newline does not end in a newline. */
  lemma JoinHasNoTrailingNewline(lines: seq<string>)
    requires lines != [] && SingleLines(lines)
    requires lines[|lines| - 1] != ""
    ensures !HasSuffix(Join(lines), "\n")
  {
    var last := lines[|lines| - 1];
    var j := Join(lines);
    if |lines| > 1 {
      assert j == Join(lines[..|lines| - 1]) + "\n" + last;
    }
    assert j[|j| - 1] == last[|last| - 1];
    assert '\n' !in last;
  }
}
