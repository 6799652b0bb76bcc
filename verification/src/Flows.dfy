/** What a sequence of frames carries: payload bytes, credit, FIN marks. */
module Flows {
  import opened Wrappers
  import opened Frames

  /** Frames exchanged between a stream and its manager: data or credit, with a matching header. */
  predicate StreamFrame(f: Frame) {
    || (f.header.typ.Data? && f.body.Data?)
    || (f.header.typ.WndInc? && f.body.WndInc?)
  }

  predicate AllStreamFrames(fs: seq<Frame>) {
    forall f :: f in fs ==> StreamFrame(f)
  }

  predicate HasFin(fs: seq<Frame>) {
    exists f :: f in fs && f.IsFin()
  }

  /** A FIN among the first `n` frames. */
  predicate FinWithin(fs: seq<Frame>, n: nat) {
    exists i :: 0 <= i < n && i < |fs| && fs[i].IsFin()
  }

  predicate IsSuffix(tail: seq<Frame>, fs: seq<Frame>) {
    |tail| <= |fs| && tail == fs[|fs| - |tail|..]
  }

  function PayloadOf(fs: seq<Frame>): seq<Byte> {
    if fs == [] then [] else fs[0].Payload() + PayloadOf(fs[1..])
  }

  function CreditOf(fs: seq<Frame>): nat {
    if fs == [] then 0 else fs[0].Credit() + CreditOf(fs[1..])
  }

  /** No payload comes behind a FIN; `fin` says whether one has gone before. */
  predicate Quiet(fin: bool, fs: seq<Frame>)
    decreases |fs|
  {
    fs == [] || ((fin ==> fs[0].Payload() == []) && Quiet(fin || fs[0].IsFin(), fs[1..]))
  }

  lemma {:induction false} QuietAppend(fin: bool, fs: seq<Frame>, f: Frame)
    requires Quiet(fin, fs) && (fin || HasFin(fs) ==> f.Payload() == [])
    ensures Quiet(fin, fs + [f])
    decreases |fs|
  {
    if fs == [] {
      assert [f][1..] == [];
    } else {
      assert (fs + [f])[1..] == fs[1..] + [f];
      QuietAppend(fin || fs[0].IsFin(), fs[1..], f);
    }
  }

  lemma {:induction false} QuietMeansEmpty(fs: seq<Frame>)
    requires Quiet(true, fs)
    ensures PayloadOf(fs) == []
  {
    if fs != [] {
      QuietMeansEmpty(fs[1..]);
    }
  }

  lemma Associates<T>(a: seq<T>, b: seq<T>, c: seq<T>)
    ensures a + (b + c) == a + b + c
  {}

  lemma {:induction false} ConcatPayload(a: seq<Frame>, b: seq<Frame>)
    ensures PayloadOf(a + b) == PayloadOf(a) + PayloadOf(b)
  {
    if a == [] {
      assert a + b == b;
    } else {
      ConcatPayload(a[1..], b);
      assert (a + b)[0] == a[0] && (a + b)[1..] == a[1..] + b;
      Associates(a[0].Payload(), PayloadOf(a[1..]), PayloadOf(b));
    }
  }

  lemma {:induction false} ConcatCredit(a: seq<Frame>, b: seq<Frame>)
    ensures CreditOf(a + b) == CreditOf(a) + CreditOf(b)
  {
    if a == [] {
      assert a + b == b;
    } else {
      ConcatCredit(a[1..], b);
      assert a + b == [a[0]] + (a[1..] + b);
    }
  }

  lemma Concat(a: seq<Frame>, b: seq<Frame>)
    ensures PayloadOf(a + b) == PayloadOf(a) + PayloadOf(b)
    ensures CreditOf(a + b) == CreditOf(a) + CreditOf(b)
  {
    ConcatPayload(a, b);
    ConcatCredit(a, b);
  }

  lemma Single(f: Frame)
    ensures PayloadOf([f]) == f.Payload() && CreditOf([f]) == f.Credit()
  {
    assert [f][1..] == [];
  }

  lemma Append(fs: seq<Frame>, f: Frame)
    ensures PayloadOf(fs + [f]) == PayloadOf(fs) + f.Payload()
    ensures CreditOf(fs + [f]) == CreditOf(fs) + f.Credit()
  {
    Concat(fs, [f]);
    Single(f);
  }
}
