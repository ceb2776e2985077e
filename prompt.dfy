/** The console prompts `getDouble` (Waveforms, log2) and `getInteger` (HelloSine): read
    a line, parse one number followed only by white space, and accept it when it lies in
    the closed range [min, max]; when max <= min the upper bound is ignored. A rejected
    line prints "Bad input." and the prompt again. */
module Prompt {

  /** One console line after `stream >> x >> ws`: the number read, and whether the stream
      is still good and at its end (the line held that number and nothing else). */
  datatype Line<T> = Line(value: T, clean: bool)

  /** What a prompt ends with: the accepted value and the index of the line that held it,
      or no accepted line among those given (the program would keep prompting). */
  datatype Answer<T> = Accepted(value: T, at: nat) | Exhausted

  /** The range test: at least min, and at most max unless max <= min. */
  predicate InBounds(x: real, min: real, max: real)
  {
    if max <= min then x >= min else x >= min && x <= max
  }

  /** The range test read both ways: x is accepted exactly when it is at least min and,
      when max exceeds min, at most max. */
  lemma BoundsRule(x: real, min: real, max: real)
    ensures InBounds(x, min, max) <==> min <= x && (min < max ==> x <= max)
    ensures max <= min ==> (InBounds(x, min, max) <==> min <= x)
  {
  }

  /** getDouble's acceptance test for one line. */
  predicate AcceptsDouble(line: Line<real>, min: real, max: real)
  {
    InBounds(line.value, min, max) && line.clean
  }

  /** getInteger's acceptance test for one line: the same rule on integers. */
  predicate AcceptsInteger(line: Line<int>, min: int, max: int)
  {
    InBounds(line.value as real, min as real, max as real) && line.clean
  }

  /** The retry loop: read lines until one is accepted. The answer is the first accepted
      line; every line before it was rejected (and re-prompted); when no line is accepted
      every line was rejected. */
  method FirstAccepted<T>(lines: seq<Line<T>>, accepts: Line<T> -> bool) returns (a: Answer<T>)
    ensures a.Accepted? ==>
      a.at < |lines| && accepts(lines[a.at]) && a.value == lines[a.at].value
    ensures a.Accepted? ==> forall k :: 0 <= k < a.at ==> !accepts(lines[k])
    ensures a.Exhausted? <==> forall k :: 0 <= k < |lines| ==> !accepts(lines[k])
  {
    var k := 0;
    while k < |lines|
      invariant 0 <= k <= |lines|
      invariant forall j :: 0 <= j < k ==> !accepts(lines[j])
    {
      if accepts(lines[k]) {
        return Accepted(lines[k].value, k);
      }
      k := k + 1;
    }
    return Exhausted;
  }

  /** getDouble: the first clean line whose number lies in [min, max] (upper bound ignored
      when max <= min); all earlier lines rejected. */
  method GetDouble(lines: seq<Line<real>>, min: real, max: real) returns (a: Answer<real>)
    ensures a.Accepted? ==> a.at < |lines| && a.value == lines[a.at].value
    ensures a.Accepted? ==> lines[a.at].clean && InBounds(a.value, min, max)
    ensures a.Accepted? ==> forall k :: 0 <= k < a.at ==> !AcceptsDouble(lines[k], min, max)
    ensures a.Exhausted? <==> forall k :: 0 <= k < |lines| ==> !AcceptsDouble(lines[k], min, max)
  {
    a := FirstAccepted(lines, line => AcceptsDouble(line, min, max));
  }

  /** getInteger: the first clean line whose integer lies in [min, max] (upper bound ignored
      when max <= min); all earlier lines rejected. */
  method GetInteger(lines: seq<Line<int>>, min: int, max: int) returns (a: Answer<int>)
    ensures a.Accepted? ==> a.at < |lines| && a.value == lines[a.at].value
    ensures a.Accepted? ==> lines[a.at].clean && min <= a.value && (min < max ==> a.value <= max)
    ensures a.Accepted? ==> forall k :: 0 <= k < a.at ==> !AcceptsInteger(lines[k], min, max)
    ensures a.Exhausted? <==> forall k :: 0 <= k < |lines| ==> !AcceptsInteger(lines[k], min, max)
  {
    a := FirstAccepted(lines, line => AcceptsInteger(line, min, max));
  }
}
