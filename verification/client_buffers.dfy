/** The client-side index buffer (`IClientBuffer`) as the index generator sees
    it: a bump reservation pointer and raw 32-bit stores. The buffer's own
    class is not part of this model; this module states only what
    `reserve` and `MemoryUtil.memPutInt` do to it. Sizes and addresses are in
    4-byte words: the source passes byte counts of the form `n * 4L`. */
module ClientBuffers {

  /** `m` after storing the words of `s` at the consecutive addresses
      `at`, `at + 1`, ... (the last store is the outermost update). */
  function Overlay(m: map<int, int>, at: int, s: seq<int>): map<int, int>
    decreases |s|
  {
    if s == [] then m else Overlay(m, at, s[..|s| - 1])[at + |s| - 1 := s[|s| - 1]]
  }

  /** Storing one more word extends an overlay by one address. */
  lemma OverlaySnoc(m: map<int, int>, at: int, s: seq<int>, x: int)
    ensures Overlay(m, at, s + [x]) == Overlay(m, at, s)[at + |s| := x]
  {
    assert (s + [x])[..|s|] == s;
  }

  /** Six consecutive stores, as one group of the index generator performs
      them, extend an overlay by those six words. */
  lemma OverlayGroup(m: map<int, int>, at: int, s: seq<int>, x0: int, x1: int, x2: int, x3: int, x4: int, x5: int)
    ensures var b := at + |s|;
      Overlay(m, at, s + [x0, x1, x2, x3, x4, x5])
      == Overlay(m, at, s)[b := x0][b + 1 := x1][b + 2 := x2][b + 3 := x3][b + 4 := x4][b + 5 := x5]
  {
    var s1 := s + [x0];
    var s2 := s1 + [x1];
    var s3 := s2 + [x2];
    var s4 := s3 + [x3];
    var s5 := s4 + [x4];
    assert s + [x0, x1, x2, x3, x4, x5] == s5 + [x5];
    OverlaySnoc(m, at, s, x0);
    OverlaySnoc(m, at, s1, x1);
    OverlaySnoc(m, at, s2, x2);
    OverlaySnoc(m, at, s3, x3);
    OverlaySnoc(m, at, s4, x4);
    OverlaySnoc(m, at, s5, x5);
  }

  /** Inside the written range, an overlay holds the stored word. */
  lemma {:induction false} OverlayAt(m: map<int, int>, at: int, s: seq<int>, k: int)
    requires 0 <= k < |s|
    ensures at + k in Overlay(m, at, s) && Overlay(m, at, s)[at + k] == s[k]
    decreases |s|
  {
    if k < |s| - 1 {
      OverlayAt(m, at, s[..|s| - 1], k);
    }
  }

  /** Outside the written range, an overlay leaves memory as it was. */
  lemma {:induction false} OverlayOutside(m: map<int, int>, at: int, s: seq<int>, a: int)
    requires a < at || at + |s| <= a
    ensures (a in Overlay(m, at, s)) == (a in m)
    ensures a in m ==> Overlay(m, at, s)[a] == m[a]
    decreases |s|
  {
    if s != [] {
      OverlayOutside(m, at, s[..|s| - 1], a);
    }
  }

  class ClientBuffer {
    /** The words stored so far, by word address. */
    var words: map<int, int>
    /** The words reserved so far: the next reservation starts here. */
    var reserved: nat
    /** The size of every reservation made, in call order. */
    var reservations: seq<nat>

    constructor ()
      ensures words == map[] && reserved == 0 && reservations == []
    {
      words := map[];
      reserved := 0;
      reservations := [];
    }

    /** `reserve`: claims `size` words after everything reserved before and
        returns the address of the first. */
    method Reserve(size: nat) returns (address: nat)
      modifies this`reserved, this`reservations
      ensures address == old(reserved)
      ensures reserved == old(reserved) + size
      ensures reservations == old(reservations) + [size]
    {
      address := reserved;
      reserved := reserved + size;
      reservations := reservations + [size];
    }

    /** `MemoryUtil.memPutInt`: stores one word at any address, reserved or not. */
    method PutInt(address: int, value: int)
      modifies this`words
      ensures words == old(words)[address := value]
    {
      words := words[address := value];
    }
  }
}
