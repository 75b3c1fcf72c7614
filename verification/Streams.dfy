/**
 Sequences of messages on their way from one side to the other: what a draining writer puts on
 the wire, what a reader makes of it, and the one description of the two together.
 */
module Streams {
  import opened Messages

  predicate NoClose(ms: seq<Message>) {
    forall m :: m in ms ==> !m.IsClose()
  }

  /** The messages up to and including the first Close. */
  function UpToClose(ms: seq<Message>): seq<Message> {
    if ms == [] then [] else if ms[0].IsClose() then [ms[0]] else [ms[0]] + UpToClose(ms[1..])
  }

  /** The wire form of each message in turn; text that is not UTF-8 has none. */
  function Encoded(ms: seq<Message>): seq<RawMessage> {
    if ms == [] then [] else (if Sendable(ms[0]) then [ToRaw(ms[0]).value] else []) + Encoded(ms[1..])
  }

  /** What a writer that stops at the first Close puts on the wire for the messages it is given. */
  function Written(ms: seq<Message>): seq<RawMessage> {
    Encoded(UpToClose(ms))
  }

  function Decoded(raws: seq<RawMessage>): (ms: seq<Message>)
    ensures |ms| == |raws|
  {
    seq(|raws|, i requires 0 <= i < |raws| => FromRaw(raws[i]))
  }

  /** What arrives of the messages sent: cut after the first Close, unsendable text gone, Close payloads emptied. */
  function Transmitted(ms: seq<Message>): seq<Message> {
    if ms == [] then []
    else if ms[0].IsClose() then [CLOSE]
    else (if ms[0].messageType == Text && !ValidUtf8(ms[0].payload) then [] else [ms[0]]) + Transmitted(ms[1..])
  }

  lemma {:induction false} UpToCloseAppend(a: seq<Message>, b: seq<Message>)
    ensures NoClose(a) ==> UpToClose(a + b) == a + UpToClose(b)
    ensures !NoClose(a) ==> UpToClose(a + b) == UpToClose(a)
  {
    if a == [] {
      assert a + b == b;
    } else {
      assert (a + b)[1..] == a[1..] + b;
      assert forall m :: m in a <==> m == a[0] || m in a[1..];
      UpToCloseAppend(a[1..], b);
    }
  }

  lemma {:induction false} EncodedAppend(a: seq<Message>, b: seq<Message>)
    ensures Encoded(a + b) == Encoded(a) + Encoded(b)
  {
    if a == [] {
      assert a + b == b;
    } else {
      assert (a + b)[1..] == a[1..] + b;
      EncodedAppend(a[1..], b);
    }
  }

  lemma EncodedSingle(m: Message)
    ensures Encoded([m]) == if Sendable(m) then [ToRaw(m).value] else []
  {
    assert [m][1..] == [];
    assert Encoded([m][1..]) == [];
  }

  /** One more message reaches the wire unless a Close went before it or it is unsendable text. */
  lemma WrittenNext(a: seq<Message>, m: Message)
    ensures Written(a + [m]) ==
            if NoClose(a) && Sendable(m) then Written(a) + [ToRaw(m).value] else Written(a)
  {
    UpToCloseAppend(a, [m]);
    UpToCloseAppend(a, []);
    assert a + [] == a;
    if NoClose(a) {
      assert UpToClose([m]) == [m];
      EncodedAppend(a, [m]);
      EncodedSingle(m);
    }
  }

  lemma WrittenMonotone(a: seq<Message>, b: seq<Message>)
    ensures Written(a) <= Written(a + b)
    ensures !NoClose(a) ==> Written(a) == Written(a + b)
  {
    UpToCloseAppend(a, b);
    UpToCloseAppend(a, []);
    assert a + [] == a;
    if NoClose(a) {
      EncodedAppend(a, UpToClose(b));
    }
  }

  /** A writer that has read `a` without meeting a Close reads `m` next. */
  lemma WriterReadsOne(a: seq<Message>, m: Message, rest: seq<Message>)
    requires NoClose(a)
    ensures NoClose(a + [m]) <==> !m.IsClose()
    ensures Written(a + [m]) == Written(a) + (if Sendable(m) then [ToRaw(m).value] else [])
    ensures Written(a + [m]) <= Written(a + [m] + rest)
    ensures m.IsClose() ==> a + [m] == UpToClose(a + [m] + rest) && Written(a + [m]) == Written(a + [m] + rest)
  {
    WrittenNext(a, m);
    WrittenMonotone(a + [m], rest);
    assert m in a + [m] && forall x :: x in a + [m] <==> x in a || x == m;
    if m.IsClose() {
      UpToCloseAppend(a, [m]);
      UpToCloseAppend(a + [m], rest);
      assert UpToClose([m]) == [m];
    }
  }

  lemma UpToCloseAll(ms: seq<Message>)
    requires NoClose(ms)
    ensures UpToClose(ms) == ms
  {
    UpToCloseAppend(ms, []);
    assert ms + [] == ms;
  }

  predicate NoCloseFrame(raws: seq<RawMessage>) {
    forall raw :: raw in raws ==> !raw.RawClose?
  }

  lemma {:induction false} NoCloseEncodes(ms: seq<Message>)
    requires NoClose(ms)
    ensures NoCloseFrame(Encoded(ms))
  {
    if ms != [] {
      assert ms[0] in ms && NoClose(ms[1..]);
      NoCloseEncodes(ms[1..]);
    }
  }

  /** `UpToClose` is close-free but for a Close at its end, and that only if there is one. */
  lemma {:induction false} UpToCloseSplits(ms: seq<Message>) returns (front: seq<Message>, last: seq<Message>)
    ensures UpToClose(ms) == front + last && NoClose(front)
    ensures if NoClose(ms) then last == [] else |last| == 1 && last[0].IsClose()
  {
    if ms == [] {
      front, last := [], [];
    } else if ms[0].IsClose() {
      assert ms[0] in ms;
      front, last := [], [ms[0]];
    } else {
      front, last := UpToCloseSplits(ms[1..]);
      front := [ms[0]] + front;
      assert NoClose(ms) <==> NoClose(ms[1..]) by {
        assert ms == [ms[0]] + ms[1..];
      }
    }
  }

  /** At most one Close frame is ever written, and only as the last frame. */
  lemma CloseIsWrittenLast(ms: seq<Message>)
    ensures forall i :: 0 <= i < |Written(ms)| - 1 ==> !Written(ms)[i].RawClose?
    ensures Written(ms) != [] && Written(ms)[|Written(ms)| - 1].RawClose? <==> !NoClose(ms)
  {
    var front, last := UpToCloseSplits(ms);
    NoCloseEncodes(front);
    EncodedAppend(front, last);
    if !NoClose(ms) {
      assert last == [last[0]];
      EncodedSingle(last[0]);
    }
    assert forall i :: 0 <= i < |Encoded(front)| ==> Encoded(front)[i] in Encoded(front);
  }

  lemma DecodedAppend(a: seq<RawMessage>, b: seq<RawMessage>)
    ensures Decoded(a + b) == Decoded(a) + Decoded(b)
  {
  }

  lemma DecodedMonotone(a: seq<RawMessage>, b: seq<RawMessage>)
    requires a <= b
    ensures Decoded(a) <= Decoded(b)
  {
    assert b == a + b[|a|..];
    DecodedAppend(a, b[|a|..]);
  }

  /** Reading back everything that was written gives exactly what `Transmitted` describes. */
  lemma {:induction false} ReadBackWritten(ms: seq<Message>)
    ensures Decoded(Written(ms)) == Transmitted(ms)
  {
    if ms == [] {
    } else if ms[0].IsClose() {
      EncodedSingle(ms[0]);
    } else {
      ReadBackWritten(ms[1..]);
      var head := if Sendable(ms[0]) then [ToRaw(ms[0]).value] else [];
      assert Written(ms) == head + Written(ms[1..]);
      DecodedAppend(head, Written(ms[1..]));
      assert Decoded(head) == if Sendable(ms[0]) then [ms[0]] else [];
    }
  }

  /** A message that cannot be sent costs nothing but itself. */
  lemma UnsendableIsSkipped(a: seq<Message>, bad: Message, b: seq<Message>)
    requires !Sendable(bad)
    ensures Written(a + [bad] + b) == Written(a + b)
    ensures Transmitted(a + [bad] + b) == Transmitted(a + b)
  {
    UpToCloseAppend(a, [bad] + b);
    UpToCloseAppend(a, b);
    assert a + [bad] + b == a + ([bad] + b);
    assert UpToClose([bad] + b) == [bad] + UpToClose(b) by {
      assert ([bad] + b)[1..] == b;
    }
    EncodedAppend(a, [bad] + UpToClose(b));
    EncodedAppend([bad], UpToClose(b));
    EncodedSingle(bad);
    EncodedAppend(a, UpToClose(b));
    ReadBackWritten(a + [bad] + b);
    ReadBackWritten(a + b);
  }
}
