/** Singly linked lists the way src/netqw.c keeps them: a head, a tail, and a next pointer in every element.
    Addresses are numbers, zero is the null pointer, and `next` is that struct field at every address. */
module LinkedList {

  predicate NoDup(q: seq<nat>) {
    forall i, j | 0 <= i < j < |q| :: q[i] != q[j]
  }

  function First(q: seq<nat>): nat {
    if q == [] then 0 else q[0]
  }

  function Last(q: seq<nat>): nat {
    if q == [] then 0 else q[|q| - 1]
  }

  function After(q: seq<nat>, i: nat): nat
    requires i < |q|
  {
    if i + 1 < |q| then q[i + 1] else 0
  }

  /** From `head` the next pointers lead through `q` and end. */
  ghost predicate Chain(next: map<nat, nat>, head: nat, q: seq<nat>) {
    && head == First(q)
    && forall i | 0 <= i < |q| :: q[i] != 0 && q[i] in next && next[q[i]] == After(q, i)
  }

  ghost predicate Linked(next: map<nat, nat>, head: nat, tail: nat, q: seq<nat>) {
    NoDup(q) && Chain(next, head, q) && tail == Last(q)
  }

  /** `new->next = 0; if (tail) tail->next = new` */
  function LinkTail(next: map<nat, nat>, tail: nat, at: nat): map<nat, nat> {
    if tail == 0 then next[at := 0] else next[at := 0][tail := at]
  }

  lemma MoreNoDup(q: seq<nat>, a: nat)
    requires NoDup(q) && a !in q
    ensures NoDup(q + [a]) && forall b :: b in q + [a] <==> b in q || b == a
  {
  }

  lemma TailNoDup(q: seq<nat>)
    requires q != [] && NoDup(q)
    ensures NoDup(q[1..]) && forall a :: a in q[1..] <==> a in q && a != q[0]
  {
    forall a ensures a in q[1..] <==> a in q && a != q[0] {
      if a in q && a != q[0] {
        var i :| 0 <= i < |q| && q[i] == a;
        assert q[1..][i - 1] == a;
      }
    }
  }

  /** Linking a new element behind the tail appends it, and the head is set only for the first. */
  lemma Appended(next: map<nat, nat>, head: nat, tail: nat, q: seq<nat>, at: nat)
    requires NoDup(q) && Chain(next, head, q) && tail == Last(q) && at != 0 && at !in q
    ensures Linked(LinkTail(next, tail, at), if tail == 0 then at else head, at, q + [at])
  {
    MoreNoDup(q, at);
    var n := LinkTail(next, tail, at);
    forall i | 0 <= i < |q + [at]|
      ensures (q + [at])[i] != 0 && (q + [at])[i] in n && n[(q + [at])[i]] == After(q + [at], i)
    {
      if i < |q| {
        assert q[i] != at && next[q[i]] == After(q, i);
        assert i < |q| - 1 ==> q[i] != tail;
      }
    }
  }

  /** Following the head's next pointer removes the head; the list is empty when that pointer is null. */
  lemma Popped(next: map<nat, nat>, head: nat, q: seq<nat>)
    requires NoDup(q) && Chain(next, head, q) && q != []
    ensures head == q[0] && head in next && NoDup(q[1..]) && Chain(next, next[head], q[1..])
    ensures next[head] == 0 <==> q[1..] == []
    ensures q[1..] != [] ==> Last(q[1..]) == Last(q)
  {
    TailNoDup(q);
    assert next[q[0]] == After(q, 0);
    forall i | 0 <= i < |q| - 1
      ensures q[1..][i] != 0 && q[1..][i] in next && next[q[1..][i]] == After(q[1..], i)
    {
      assert next[q[i + 1]] == After(q, i + 1);
    }
  }

  /** Writes to other elements do not matter. */
  lemma ChainKept(next: map<nat, nat>, later: map<nat, nat>, head: nat, q: seq<nat>)
    requires Chain(next, head, q) && forall a | a in q && a in next :: a in later && later[a] == next[a]
    ensures Chain(later, head, q)
  {
  }

  lemma LinkedKept(next: map<nat, nat>, later: map<nat, nat>, head: nat, tail: nat, q: seq<nat>)
    requires Linked(next, head, tail, q) && forall a | a in q && a in next :: a in later && later[a] == next[a]
    ensures Linked(later, head, tail, q)
  {
  }

  /** The head of a list is null exactly when the list is empty. */
  lemma HeadTells(next: map<nat, nat>, head: nat, q: seq<nat>)
    requires Chain(next, head, q)
    ensures head == 0 <==> q == []
    ensures q != [] ==> head == q[0] && head in next
  {
  }

  /** What appending and removing the head do to a whole list. */
  lemma LinkedAppended(next: map<nat, nat>, head: nat, tail: nat, q: seq<nat>, at: nat)
    requires Linked(next, head, tail, q) && at != 0 && at !in q
    ensures Linked(LinkTail(next, tail, at), if tail == 0 then at else head, at, q + [at])
    ensures tail != 0 ==> tail in next && tail in q
  {
    Appended(next, head, tail, q, at);
  }

  lemma LinkedPopped(next: map<nat, nat>, head: nat, tail: nat, q: seq<nat>)
    requires Linked(next, head, tail, q) && q != []
    ensures head == q[0] && head in next && head !in q[1..]
    ensures Linked(next, next[head], if next[head] == 0 then 0 else tail, q[1..])
  {
    Popped(next, head, q);
    TailNoDup(q);
  }
}
