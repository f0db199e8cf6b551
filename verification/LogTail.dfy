// The last lines of the daemon log: writeLastLogLines of
// server/cmd/agentra/daemon_logs.go.
module LogTail {
  import opened ModArith

  datatype Outcome = Written | ReadError | WriteError

  // What a reader asks for: the last n lines, in order.
  function Tail(input: seq<string>, n: nat): (t: seq<string>)
  {
    if |input| <= n then input else input[|input| - n..]
  }

  // Line j sits in slot j % lines; a later line among the next lines - 1 never
  // lands on it.
  lemma SlotKept(j: nat, count: nat, lines: Pos)
    requires j < count < j + lines
    ensures j % lines != count % lines
  {
    ModAdd(j, count - j, lines);
  }

  // Reading from start = count % lines walks the slots of the last lines lines.
  lemma ReadSlot(count: nat, i: nat, lines: Pos)
    requires lines < count && i < lines
    ensures (count % lines + i) % lines == (count - lines + i) % lines
  {
    ModAdd(count - lines, lines, lines);
    ModAdd(count - lines, i, lines);
    DivModUnique(count % lines, lines, 0, count % lines);
    ModAdd(count % lines, i, lines);
  }

  // The ring holds the last lines of the first count input lines.
  ghost predicate Ring(ring: seq<string>, input: seq<string>, count: nat, lines: Pos)
    requires |ring| == lines && count <= |input|
  {
    forall j {:trigger input[j]} | 0 <= j < count < j + lines + 1 :: ring[j % lines] == input[j]
  }

  lemma PutKeepsRing(ring: seq<string>, input: seq<string>, count: nat, lines: Pos)
    requires |ring| == lines && count < |input| && Ring(ring, input, count, lines)
    ensures Ring(ring[count % lines := input[count]], input, count + 1, lines)
  {
    forall j {:trigger input[j]} | 0 <= j < count + 1 < j + lines + 1
      ensures ring[count % lines := input[count]][j % lines] == input[j]
    {
      if j < count {
        SlotKept(j, count, lines);
      }
    }
  }

  // The slot printed i-th holds the i-th line of the tail.
  lemma {:induction false} PrintedLine(ring: seq<string>, input: seq<string>, start: nat, i: nat, lines: Pos)
    requires |ring| == lines && Ring(ring, input, |input|, lines)
    requires i < |Tail(input, lines)|
    requires start == if |input| > lines then |input| % lines else 0
    ensures ring[(start + i) % lines] == Tail(input, lines)[i]
  {
    if |input| > lines {
      ReadSlot(|input|, i, lines);
      assert ring[(|input| - lines + i) % lines] == input[|input| - lines + i];
    } else {
      assert ring[i % lines] == input[i];
    }
  }

  // One read: the slot of line number count is overwritten.
  method Put(ring: array<string>, ghost input: seq<string>, count: nat, line: string, lines: Pos)
    requires ring.Length == lines && count < |input| && line == input[count]
    requires Ring(ring[..], input, count, lines)
    modifies ring
    ensures Ring(ring[..], input, count + 1, lines)
  {
    PutKeepsRing(ring[..], input, count, lines);
    ring[count % lines] := line;
    assert ring[..] == old(ring[..])[count % lines := line];
  }

  // The second half: print from the oldest slot round.
  method Print(ring: array<string>, ghost input: seq<string>, count: nat, lines: Pos, writeFails: nat -> bool)
    returns (output: seq<string>, outcome: Outcome)
    requires ring.Length == lines && count == |input|
    requires Ring(ring[..], input, count, lines)
    ensures !outcome.ReadError?
    ensures outcome.Written? ==> output == Tail(input, lines)
    ensures outcome.WriteError? ==> output < Tail(input, lines) && writeFails(|output|)
    ensures forall i | 0 <= i < |output| :: !writeFails(i)
  {
    output := [];
    var start, length := 0, count;
    if count > lines {
      start := count % lines;
      length := lines;
    }
    for i := 0 to length
      invariant output == Tail(input, lines)[..i]
      invariant forall j | 0 <= j < i :: !writeFails(j)
    {
      if writeFails(i) {
        return output, WriteError;
      }
      PrintedLine(ring[..], input, start, i, lines);
      output := output + [ring[(start + i) % lines]];
    }
    return output, Written;
  }

  // scanFails: the scanner stopped on an error instead of end of file.
  // writeFails(i): writing line i of the output fails.
  method WriteLastLogLines(input: seq<string>, lines: Pos, scanFails: bool, writeFails: nat -> bool)
    returns (output: seq<string>, outcome: Outcome)
    ensures outcome.ReadError? <==> scanFails
    ensures outcome.ReadError? ==> output == []
    ensures var n := if |input| < lines then |input| else lines;
      && (outcome.Written? ==> output == input[|input| - n..])
      && (outcome.WriteError? ==> output < input[|input| - n..] && writeFails(|output|))
    ensures forall i | 0 <= i < |output| :: !writeFails(i)
  {
    output := [];
    var ring := new string[lines](_ => "");
    var count := 0;
    for k := 0 to |input|
      invariant count == k
      invariant Ring(ring[..], input, count, lines)
    {
      Put(ring, input, count, input[k], lines);
      count := count + 1;
    }
    if scanFails {
      return [], ReadError;
    }
    output, outcome := Print(ring, input, count, lines, writeFails);
  }
}
