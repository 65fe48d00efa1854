/** Types shared by every part of the relay model. */
module Base {
  type Byte = b: int | 0 <= b < 256

  type Bytes = seq<Byte>

  const TWO64 := 0x1_0000_0000_0000_0000

  /** A RecipientKey: the 32-byte public key that names a Device's Inbox. */
  type Key = k: Bytes | |k| == 32 witness seq(32, _ => 0)

  datatype Option<+T> = None | Some(value: T)

  /** A blob on its way to a Device: the store-assigned id and the envelope bytes. */
  datatype Blob = Blob(id: int, envelope: Bytes)

  predicate IsPrefix<T(==)>(s: seq<T>, t: seq<T>) {
    |s| <= |t| && s == t[..|s|]
  }

  /** Each element's contribution, in order. */
  function Collect<A, B>(f: A -> seq<B>, s: seq<A>): seq<B> {
    if s == [] then [] else Collect(f, s[..|s| - 1]) + f(s[|s| - 1])
  }

  lemma CollectSnoc<A, B>(f: A -> seq<B>, s: seq<A>, x: A)
    ensures Collect(f, s + [x]) == Collect(f, s) + f(x)
  {
    assert (s + [x])[..|s|] == s;
  }

  lemma AppendLast<A>(s: seq<A>, t: seq<A>)
    requires t != []
    ensures s + t == s + t[..|t| - 1] + [t[|t| - 1]]
  {
  }

  lemma {:induction false} CollectConcat<A, B>(f: A -> seq<B>, s: seq<A>, t: seq<A>)
    ensures Collect(f, s + t) == Collect(f, s) + Collect(f, t)
  {
    if t == [] {
      assert s + t == s;
    } else {
      var init, last := t[..|t| - 1], t[|t| - 1];
      CollectConcat(f, s, init);
      CollectSnoc(f, s + init, last);
      AppendLast(s, t);
    }
  }
}
