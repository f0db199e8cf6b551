// server/internal/daemon/task_messages.go over UTF-8 as RFC 3629 section 4
// defines it.
module TaskMessages {
  import opened Base

  // protocol.TaskMessageFieldBytes
  const FIELD_BYTES: nat := 64 * 1024

  predicate Tail(b: Byte) {
    0x80 <= b < 0xC0
  }

  // utf8.RuneStart
  predicate RuneStart(b: Byte) {
    !Tail(b)
  }

  // The length of the character at the front of s, or 0 if there is none.
  function CharLen(s: seq<Byte>): (n: nat)
    ensures n <= |s| && n <= 4
  {
    if s == [] then 0
    else if s[0] <= 0x7F then 1
    else if |s| < 2 || !Tail(s[1]) then 0
    else if 0xC2 <= s[0] <= 0xDF then 2
    else if |s| < 3 || !Tail(s[2]) then 0
    else if || (s[0] == 0xE0 && 0xA0 <= s[1]) || 0xE1 <= s[0] <= 0xEC
            || (s[0] == 0xED && s[1] <= 0x9F) || 0xEE <= s[0] <= 0xEF then 3
    else if |s| < 4 || !Tail(s[3]) then 0
    else if (s[0] == 0xF0 && 0x90 <= s[1]) || 0xF1 <= s[0] <= 0xF3 || (s[0] == 0xF4 && s[1] <= 0x8F) then 4
    else 0
  }

  predicate ValidUtf8(s: seq<Byte>) {
    s == [] || (CharLen(s) > 0 && ValidUtf8(s[CharLen(s)..]))
  }

  function Join(chunks: seq<seq<Byte>>): seq<Byte> {
    if chunks == [] then [] else chunks[0] + Join(chunks[1..])
  }

  // ---------- characters and their boundaries ----------

  lemma CharShape(s: seq<Byte>)
    requires CharLen(s) > 0
    ensures RuneStart(s[0]) && forall k | 1 <= k < CharLen(s) :: Tail(s[k])
    ensures CharLen(s[..CharLen(s)]) == CharLen(s)
  {
  }

  // Where a rune starts, valid text may be cut.
  lemma {:induction false} CutKeepsValidity(s: seq<Byte>, p: nat)
    requires ValidUtf8(s) && p < |s| && RuneStart(s[p])
    ensures ValidUtf8(s[..p]) && ValidUtf8(s[p..])
    decreases |s|
  {
    hide CharLen;
    var n := CharLen(s);
    CharShape(s);
    if 0 < p {
      CutKeepsValidity(s[n..], p - n);
      assert s[n..][p - n..] == s[p..];
      FrontChar(s, p);
      assert s[..p][n..] == s[n..][..p - n];
    }
  }

  lemma FrontChar(s: seq<Byte>, p: nat)
    requires 0 < CharLen(s) <= p <= |s|
    ensures CharLen(s[..p]) == CharLen(s)
  {
  }

  // No more than three bytes separate a position from the rune start before it.
  lemma {:induction false} RuneStartNearby(s: seq<Byte>, p: nat)
    requires ValidUtf8(s) && p < |s|
    ensures exists q | 0 <= q <= p :: p < q + 4 && RuneStart(s[q])
    decreases |s|
  {
    var n := CharLen(s);
    CharShape(s);
    if p < n {
      assert RuneStart(s[0]);
    } else {
      RuneStartNearby(s[n..], p - n);
      var q :| 0 <= q <= p - n && p - n < q + 4 && RuneStart(s[n..][q]);
      assert RuneStart(s[n + q]);
    }
  }

  lemma CharStays(a: seq<Byte>, b: seq<Byte>)
    requires 0 < CharLen(a)
    ensures CharLen(a + b) == CharLen(a)
  {
  }

  lemma {:induction false} ValidConcat(a: seq<Byte>, b: seq<Byte>)
    requires ValidUtf8(a) && ValidUtf8(b)
    ensures ValidUtf8(a + b)
    decreases |a|
  {
    hide CharLen;
    if a == [] {
      assert a + b == b;
    } else {
      var n := CharLen(a);
      CharStays(a, b);
      ValidConcat(a[n..], b);
      assert (a + b)[n..] == a[n..] + b;
    }
  }

  // ---------- splitting ----------

  // The last rune start at or before end, or 0.
  function CutBefore(s: seq<Byte>, end: nat): (k: nat)
    requires end < |s|
    ensures k <= end && (k > 0 ==> RuneStart(s[k]))
    ensures forall j | k < j <= end :: !RuneStart(s[j])
  {
    if end == 0 || RuneStart(s[end]) then end else CutBefore(s, end - 1)
  }

  function CutPoint(s: seq<Byte>, limit: nat): (k: nat)
    requires 0 < limit < |s|
    ensures 0 < k <= limit
  {
    if CutBefore(s, limit) == 0 then limit else CutBefore(s, limit)
  }

  function Chunks(s: seq<Byte>, limit: nat): seq<seq<Byte>>
    requires 0 < limit
    decreases |s|
  {
    if s == [] then []
    else if |s| <= limit then [s]
    else [s[..CutPoint(s, limit)]] + Chunks(s[CutPoint(s, limit)..], limit)
  }

  // Whatever the text, the chunks join to it, so only their validity and lower
  // bound rest on it.
  lemma {:induction false} ChunksJoin(s: seq<Byte>, limit: nat)
    requires 0 < limit
    ensures Join(Chunks(s, limit)) == s
    ensures forall k | 0 <= k < |Chunks(s, limit)| :: 0 < |Chunks(s, limit)[k]| <= limit
    decreases |s|
  {
    if |s| <= limit {
      if s != [] {
        assert [s][1..] == [];
      }
    } else {
      var cut := CutPoint(s, limit);
      ChunksJoin(s[cut..], limit);
      assert Chunks(s, limit)[1..] == Chunks(s[cut..], limit);
    }
  }

  lemma FirstChunkIsSound(s: seq<Byte>, limit: nat)
    requires ValidUtf8(s) && 4 <= limit < |s|
    ensures var cut := CutPoint(s, limit);
      limit - 3 <= cut && ValidUtf8(s[..cut]) && ValidUtf8(s[cut..])
  {
    RuneStartNearby(s, limit);
    CutKeepsValidity(s, CutPoint(s, limit));
  }

  ghost predicate SoundChunks(cs: seq<seq<Byte>>, limit: nat) {
    && (forall k | 0 <= k < |cs| :: 0 < |cs[k]| <= limit && ValidUtf8(cs[k]))
    && (forall k | 0 <= k < |cs| - 1 :: limit - 3 <= |cs[k]|)
  }

  // For valid text and a limit of at least four bytes: nothing is lost or
  // reordered, and every chunk is non-empty, within the limit and valid; all
  // but the last come within three bytes of the limit.
  lemma {:induction false} ChunksAreSound(s: seq<Byte>, limit: nat)
    requires ValidUtf8(s) && 4 <= limit
    ensures Join(Chunks(s, limit)) == s
    ensures SoundChunks(Chunks(s, limit), limit)
    decreases |s|
  {
    hide CharLen, ValidUtf8, CutPoint;
    ChunksJoin(s, limit);
    if |s| > limit {
      FirstChunkIsSound(s, limit);
      ChunksAreSound(s[CutPoint(s, limit)..], limit);
    }
  }

  // Where text over the limit is cut: as late as a rune starts, or at the limit
  // if none does.
  ghost predicate CutLast(s: seq<Byte>, limit: nat, cut: nat)
    requires limit < |s|
  {
    && 0 < cut <= limit
    && (!(0x80 <= s[cut] < 0xC0) || (cut == limit && forall j | 0 < j <= limit :: 0x80 <= s[j] < 0xC0))
    && (forall j | cut < j <= limit :: 0x80 <= s[j] < 0xC0)
  }

  // Text within the limit is one chunk, and of longer text the first chunk is as
  // long as it can be.
  ghost predicate Greedy(s: seq<Byte>, cs: seq<seq<Byte>>, limit: nat)
    decreases |cs|
  {
    if |s| <= limit then cs == if s == [] then [] else [s]
    else
      && cs != [] && |cs[0]| <= limit && CutLast(s, limit, |cs[0]|) && cs[0] == s[..|cs[0]|]
      && Greedy(s[|cs[0]|..], cs[1..], limit)
  }

  // The chunks are that split, and it is the only one.
  lemma {:induction false} ChunksAreGreedy(s: seq<Byte>, cs: seq<seq<Byte>>, limit: nat)
    requires 0 < limit
    ensures Greedy(s, cs, limit) <==> cs == Chunks(s, limit)
    decreases |s|
  {
    if |s| > limit {
      var cut := CutPoint(s, limit);
      assert CutLast(s, limit, cut);
      if cs != [] && |cs[0]| <= limit && CutLast(s, limit, |cs[0]|) {
        assert |cs[0]| == cut;
        ChunksAreGreedy(s[cut..], cs[1..], limit);
        assert Chunks(s, limit)[1..] == Chunks(s[cut..], limit);
        assert cs == [cs[0]] + cs[1..];
      } else {
        assert |Chunks(s, limit)[0]| == cut;
      }
    }
  }

  // splitTaskMessageContent past strings.ToValidUTF8, which leaves valid text alone.
  method SplitTaskMessageContent(text: seq<Byte>, limit: nat) returns (chunks: seq<seq<Byte>>)
    requires 0 < limit
    ensures chunks == Chunks(text, limit)
  {
    if |text| == 0 {
      return [];
    }
    chunks := [];
    var content := text;
    while |content| > limit
      invariant content != [] && chunks + Chunks(content, limit) == Chunks(text, limit)
      decreases |content|
    {
      var end := limit;
      while end > 0 && !RuneStart(content[end])
        invariant end <= limit && CutBefore(content, end) == CutBefore(content, limit)
      {
        end := end - 1;
      }
      if end == 0 {
        end := limit;
      }
      Associative(chunks, [content[..end]], Chunks(content[end..], limit));
      chunks := chunks + [content[..end]];
      content := content[end..];
    }
    if content != [] {
      chunks := chunks + [content];
    }
  }
}
