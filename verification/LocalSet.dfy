/** Sets of locals as bitsets: a sequence of 64-bit words whose bits are the members, from
    the lowest of the first word on. Members are added and removed in place, a union is
    taken over the words that both sets have, and sets of one capacity are equal just when
    their words are. */
module LocalSets {

  // ---- one word -------------------------------------------------------

  function Mask(k: nat): bv64
    requires k < 64
  {
    1 << k
  }

  function Meet(a: bv64, b: bv64): bv64 {
    a & b
  }

  function Merge(a: bv64, b: bv64): bv64 {
    a | b
  }

  function Drop(a: bv64, b: bv64): bv64 {
    a & !b
  }

  predicate Bit(w: bv64, k: nat)
    requires k < 64
  {
    Meet(w, Mask(k)) != 0
  }

  lemma MeetIs(a: bv64, b: bv64)
    ensures Meet(a, b) == a & b
  {
  }

  lemma MergeIs(a: bv64, b: bv64)
    ensures Merge(a, b) == a | b
  {
  }

  lemma MeetCommutes(a: bv64, b: bv64)
    ensures Meet(a, b) == Meet(b, a) && Meet(a, a) == a
  {
  }

  lemma Distribute(a: bv64, b: bv64, m: bv64)
    ensures (a | b) & m == (a & m) | (b & m)
  {
  }

  lemma MeetMerge(a: bv64, b: bv64, m: bv64)
    ensures Meet(Merge(a, b), m) == Merge(Meet(a, m), Meet(b, m))
  {
    hide Meet, Merge;
    MergeIs(a, b);
    MeetIs(a | b, m);
    MeetIs(a, m);
    MeetIs(b, m);
    MergeIs(a & m, b & m);
    Distribute(a, b, m);
  }

  lemma MeetsMerge(a: bv64, m: bv64, q: bv64)
    ensures Meet(a, Merge(m, q)) == Merge(Meet(a, m), Meet(a, q))
  {
    hide Meet, Merge;
    MeetCommutes(a, Merge(m, q));
    MeetCommutes(a, m);
    MeetCommutes(a, q);
    MeetMerge(m, q, a);
  }

  lemma MergeZero(a: bv64, b: bv64)
    ensures Merge(a, b) == 0 <==> a == 0 && b == 0
  {
  }

  lemma MeetDrop(a: bv64, m: bv64)
    ensures Meet(Drop(a, m), m) == 0
  {
  }

  lemma MeetDropOther(a: bv64, m: bv64, q: bv64)
    requires Meet(m, q) == 0
    ensures Meet(Drop(a, m), q) == Meet(a, q)
  {
  }

  lemma FirstMask()
    ensures Mask(0) == 1
  {
  }

  lemma MaskDoubles(k: nat)
    requires k < 63
    ensures Mask(k + 1) == Mask(k) << 1
  {
    var b := k as bv64;
    var c := (k + 1) as bv64;
  }

  lemma MaskShift(k: nat) returns (b: bv64)
    requires k < 64
    ensures b < 64 && Mask(k) == 1 << b
    ensures b == 63 <==> k == 63
  {
    b := k as bv64;
    if k == 63 {
      assert b == 63;
    } else {
      assert b < 63;
    }
  }

  lemma MeetDoubles(a: bv64, b: bv64)
    ensures Meet(a, b) == 0 ==> Meet(a << 1, b << 1) == 0
    ensures Meet(1, b << 1) == 0
  {
  }

  lemma {:induction false} MasksDisjoint(k: nat, j: nat)
    requires k < j < 64
    ensures Meet(Mask(k), Mask(j)) == 0
  {
    hide Mask, Meet;
    MaskDoubles(j - 1);
    if k == 0 {
      FirstMask();
      MeetDoubles(0, Mask(j - 1));
    } else {
      MaskDoubles(k - 1);
      MasksDisjoint(k - 1, j - 1);
      MeetDoubles(Mask(k - 1), Mask(j - 1));
    }
  }

  lemma ShiftIsOneBit(a: bv64, b: bv64)
    requires b < 64
    ensures (1 as bv64 << b) != 0 && (Meet(a, 1 << b) == 0 || Meet(a, 1 << b) == 1 << b)
  {
  }

  lemma OneBit(a: bv64, k: nat)
    requires k < 64
    ensures Mask(k) != 0 && (Meet(a, Mask(k)) == 0 || Meet(a, Mask(k)) == Mask(k))
  {
    hide Mask, Meet;
    var b := MaskShift(k);
    ShiftIsOneBit(a, b);
  }

  lemma BitOfMask(k: nat, j: nat)
    requires k < 64 && j < 64
    ensures Bit(Mask(k), j) == (j == k)
  {
    hide Mask, Meet;
    MeetCommutes(Mask(k), Mask(j));
    if j < k {
      MasksDisjoint(j, k);
    } else if k < j {
      MasksDisjoint(k, j);
    } else {
      OneBit(Mask(k), k);
    }
  }

  lemma BitOfMerge(a: bv64, b: bv64, j: nat)
    requires j < 64
    ensures Bit(Merge(a, b), j) == (Bit(a, j) || Bit(b, j))
  {
    hide Mask, Meet, Merge;
    MeetMerge(a, b, Mask(j));
    MergeZero(Meet(a, Mask(j)), Meet(b, Mask(j)));
  }

  lemma BitOfDrop(a: bv64, k: nat, j: nat)
    requires k < 64 && j < 64
    ensures Bit(Drop(a, Mask(k)), j) == (Bit(a, j) && j != k)
  {
    hide Mask, Meet, Drop;
    BitOfMask(k, j);
    if j == k {
      MeetDrop(a, Mask(k));
    } else {
      MeetDropOther(a, Mask(k), Mask(j));
    }
  }

  predicate Agree(a: bv64, b: bv64, m: bv64) {
    Meet(a, m) == Meet(b, m)
  }

  lemma SameOneBit(a: bv64, b: bv64, k: nat)
    requires k < 64 && Bit(a, k) == Bit(b, k)
    ensures Agree(a, b, Mask(k))
  {
    hide Mask, Meet;
    OneBit(a, k);
    OneBit(b, k);
  }

  lemma AgreeMerge(a: bv64, b: bv64, m: bv64, q: bv64)
    requires Agree(a, b, m) && Agree(a, b, q)
    ensures Agree(a, b, Merge(m, q))
  {
    hide Meet, Merge;
    MeetsMerge(a, m, q);
    MeetsMerge(b, m, q);
  }

  /** The bits below the single bit of `m`. */
  function BelowMask(m: bv64): bv64 {
    m - 1
  }

  lemma BelowDouble(m: bv64, k: bv64)
    requires k < 63 && m == 1 << k
    ensures BelowMask(m << 1) == Merge(BelowMask(m), m)
  {
  }

  /** Words that agree on bits `0..n` agree below the mask of bit `n`. */
  lemma {:induction false} SameLowBits(a: bv64, b: bv64, n: nat)
    requires n < 64 && forall k | 0 <= k < n :: Bit(a, k) == Bit(b, k)
    ensures Agree(a, b, BelowMask(Mask(n)))
  {
    hide Mask, Bit, BelowMask, Merge, Agree;
    if n == 0 {
      FirstMask();
      AgreeNowhere(a, b);
    } else {
      SameLowBits(a, b, n - 1);
      SameOneBit(a, b, n - 1);
      var m := Mask(n - 1);
      MaskDoubles(n - 1);
      var k := MaskShift(n - 1);
      BelowDouble(m, k);
      AgreeMerge(a, b, BelowMask(m), m);
    }
  }

  lemma AgreeNowhere(a: bv64, b: bv64)
    ensures Agree(a, b, BelowMask(1))
  {
  }

  lemma AgreeEverywhere(a: bv64, b: bv64, m: bv64)
    requires m == 1 << 63 && Agree(a, b, Merge(BelowMask(m), m))
    ensures a == b
  {
  }

  lemma {:induction false} WordsEqual(a: bv64, b: bv64)
    requires forall k | 0 <= k < 64 :: Bit(a, k) == Bit(b, k)
    ensures a == b
  {
    hide Mask, Bit, BelowMask, Merge, Agree;
    SameLowBits(a, b, 63);
    SameOneBit(a, b, 63);
    var m := Mask(63);
    var k := MaskShift(63);
    AgreeMerge(a, b, BelowMask(m), m);
    AgreeEverywhere(a, b, m);
  }

  // ---- words ----------------------------------------------------------

  predicate Has(ws: seq<bv64>, id: nat) {
    id < 64 * |ws| && Bit(ws[id / 64], id % 64)
  }

  ghost function Members(ws: seq<bv64>): set<nat> {
    set id: nat | 0 <= id < 64 * |ws| && Has(ws, id)
  }

  lemma BitsOfInsert(w: bv64, k: nat)
    requires k < 64
    ensures forall j | 0 <= j < 64 :: Bit(Merge(w, Mask(k)), j) == (Bit(w, j) || j == k)
  {
    hide Mask, Bit, Merge;
    forall j | 0 <= j < 64
      ensures Bit(Merge(w, Mask(k)), j) == (Bit(w, j) || j == k)
    {
      BitOfMerge(w, Mask(k), j);
      BitOfMask(k, j);
    }
  }

  lemma BitsOfRemove(w: bv64, k: nat)
    requires k < 64
    ensures forall j | 0 <= j < 64 :: Bit(Drop(w, Mask(k)), j) == (Bit(w, j) && j != k)
  {
    hide Mask, Bit, Drop;
    forall j | 0 <= j < 64
      ensures Bit(Drop(w, Mask(k)), j) == (Bit(w, j) && j != k)
    {
      BitOfDrop(w, k, j);
    }
  }

  lemma BitsOfMerge(w: bv64, o: bv64)
    ensures forall j | 0 <= j < 64 :: Bit(Merge(w, o), j) == (Bit(w, j) || Bit(o, j))
  {
    hide Bit, Merge;
    forall j | 0 <= j < 64
      ensures Bit(Merge(w, o), j) == (Bit(w, j) || Bit(o, j))
    {
      BitOfMerge(w, o, j);
    }
  }

  lemma MembersInsert(ws: seq<bv64>, id: nat, w: bv64)
    requires id < 64 * |ws| && forall j | 0 <= j < 64 :: Bit(w, j) == (Bit(ws[id / 64], j) || j == id % 64)
    ensures Members(ws[id / 64 := w]) == Members(ws) + {id}
  {
    hide Bit;
  }

  lemma MembersRemove(ws: seq<bv64>, id: nat, w: bv64)
    requires id < 64 * |ws| && forall j | 0 <= j < 64 :: Bit(w, j) == (Bit(ws[id / 64], j) && j != id % 64)
    ensures Members(ws[id / 64 := w]) == Members(ws) - {id}
  {
    hide Bit;
  }

  /** Members whose word is below `n`. */
  ghost function Below(ws: seq<bv64>, n: nat): set<nat> {
    set id | id in Members(ws) && id < 64 * n
  }

  lemma NoneBelow(ws: seq<bv64>)
    ensures Below(ws, 0) == {}
  {
  }

  lemma AllBelow(ws: seq<bv64>, n: nat, i: nat)
    requires i <= |ws| && i <= n && (i == |ws| || i == n)
    ensures Below(ws, n) == Below(ws, i)
  {
  }

  lemma MembersUnion(start: seq<bv64>, ws: seq<bv64>, others: seq<bv64>, i: nat, w: bv64)
    requires |ws| == |start| && i < |ws| && i < |others| && ws[i] == start[i]
    requires Members(ws) == Members(start) + Below(others, i)
    requires forall j | 0 <= j < 64 :: Bit(w, j) == (Bit(ws[i], j) || Bit(others[i], j))
    ensures Members(ws[i := w]) == Members(start) + Below(others, i + 1)
  {
    hide Bit;
    var r := ws[i := w];
    forall id | id in Members(r) + Members(ws) + Below(others, i + 1)
      ensures id in Members(r) <==> id in Members(start) + Below(others, i + 1)
    {
      if id / 64 != i {
        assert id in Members(r) <==> id in Members(ws);
      }
    }
  }

  /** The words of two sets of one capacity are equal just when the sets are. */
  lemma SameMembers(ws: seq<bv64>, us: seq<bv64>)
    requires |ws| == |us|
    ensures ws == us <==> Members(ws) == Members(us)
  {
    hide Bit;
    if Members(ws) == Members(us) {
      forall i | 0 <= i < |ws|
        ensures ws[i] == us[i]
      {
        forall k | 0 <= k < 64
          ensures Bit(ws[i], k) == Bit(us[i], k)
        {
          var id := 64 * i + k;
          assert id / 64 == i && id % 64 == k;
          assert id in Members(ws) <==> id in Members(us);
        }
        WordsEqual(ws[i], us[i]);
      }
    }
  }

  lemma NoMembers(ws: seq<bv64>)
    requires forall i | 0 <= i < |ws| :: ws[i] == 0
    ensures Members(ws) == {}
  {
  }

  // ---- sets -----------------------------------------------------------

  function Words(n: nat): nat {
    (n + 63) / 64
  }

  function Range(n: nat): set<nat> {
    if n == 0 then {} else Range(n - 1) + {n - 1}
  }

  lemma {:induction false} InRange(n: nat, i: nat)
    ensures i in Range(n) <==> i < n
  {
    if n > 0 {
      InRange(n - 1, i);
    }
  }

  class LocalSet {
    var words: seq<bv64>

    ghost function Model(): set<nat>
      reads this
    {
      Members(words)
    }

    constructor Empty(n: nat)
      ensures Model() == {} && |words| == Words(n)
    {
      words := seq(Words(n), _ => 0);
      new;
      NoMembers(words);
    }

    constructor Full(n: nat)
      ensures Model() == Range(n) && |words| == Words(n)
    {
      words := seq(Words(n), _ => 0);
      new;
      NoMembers(words);
      for id := 0 to n
        invariant |words| == Words(n) && Model() == Range(id)
      {
        Insert(id);
      }
    }

    constructor Clone(other: LocalSet)
      ensures words == other.words
    {
      words := other.words;
    }

    predicate Contains(id: nat)
      requires id < 64 * |words|
      reads this
      ensures Contains(id) == (id in Model())
    {
      Bit(words[id / 64], id % 64)
    }

    method Insert(id: nat)
      requires id < 64 * |words|
      modifies this
      ensures |words| == old(|words|) && Model() == old(Model()) + {id}
    {
      hide Mask, Bit, Merge;
      var w := Merge(words[id / 64], Mask(id % 64));
      BitsOfInsert(words[id / 64], id % 64);
      MembersInsert(words, id, w);
      words := words[id / 64 := w];
    }

    method Remove(id: nat)
      requires id < 64 * |words|
      modifies this
      ensures |words| == old(|words|) && Model() == old(Model()) - {id}
    {
      hide Mask, Bit, Drop;
      var w := Drop(words[id / 64], Mask(id % 64));
      BitsOfRemove(words[id / 64], id % 64);
      MembersRemove(words, id, w);
      words := words[id / 64 := w];
    }

    method UnionWith(other: LocalSet) returns (changed: bool)
      requires other != this
      modifies this
      ensures |words| == old(|words|)
      ensures Model() == old(Model()) + Below(other.words, |words|)
      ensures changed == (Model() != old(Model()))
    {
      hide Bit, Merge, Below;
      changed := false;
      ghost var start := words;
      NoneBelow(other.words);
      var i := 0;
      while i < |words| && i < |other.words|
        invariant 0 <= i <= |words| && i <= |other.words|
        invariant |words| == |start| && words[i..] == start[i..]
        invariant Members(words) == Members(start) + Below(other.words, i)
        invariant changed == (words != start)
      {
        var merged := Merge(words[i], other.words[i]);
        BitsOfMerge(words[i], other.words[i]);
        assert words[i] == words[i..][0] == start[i..][0] == start[i];
        MembersUnion(start, words, other.words, i, merged);
        changed := changed || merged != words[i];
        words := words[i := merged];
        i := i + 1;
      }
      SameMembers(words, start);
      AllBelow(other.words, |words|, i);
    }

    predicate Same(other: LocalSet)
      reads this, other
      ensures Same(other) == (|words| == |other.words| && Model() == other.Model())
    {
      if |words| == |other.words| then
        SameMembers(words, other.words);
        words == other.words
      else false
    }
  }
}
