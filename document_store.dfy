/**
 The part of the MongoDB document collection that the activity handlers use:
 a collection of documents keyed by their `_id`, looked up with `find_one`
 and changed with `update_one` carrying a `$push` or a `$pull` on the
 `participants` array. The collection lives in memory as a map from `_id`
 to document; the network connection behind it is not modelled.
 */
module DocumentStore {

  datatype Option<+T> = None | Some(value: T)

  /** A stored activity document: its `_id` (the activity name) and the four fields. */
  datatype Document = Document(
    id: string,
    description: string,
    schedule: string,
    maxParticipants: int,
    participants: seq<string>)

  /** The contents of a collection, indexed by `_id`. */
  type Documents = map<string, Document>

  /** Every document is stored under its own `_id`. */
  ghost predicate KeyedById(c: Documents) {
    forall k :: k in c ==> c[k].id == k
  }

  /** `find_one({"_id": id})`: the document with that `_id`, if there is one. */
  function Lookup(c: Documents, id: string): Option<Document> {
    if id in c then Some(c[id]) else None
  }

  /** No email occurs twice in a participant list. */
  ghost predicate NoDuplicates(s: seq<string>) {
    forall i, j :: 0 <= i < j < |s| ==> s[i] != s[j]
  }

  /**
   The array operator `$pull` with a plain value: every element equal to `x`
   is removed, the others keep their order.
   */
  function Pulled(s: seq<string>, x: string): (r: seq<string>)
    ensures forall y :: y in r <==> y in s && y != x
    ensures |r| <= |s|
  {
    if s == [] then []
    else if s[0] == x then Pulled(s[1..], x)
    else [s[0]] + Pulled(s[1..], x)
  }

  /** The two update operators the handlers issue on `participants`. */
  datatype Update = Push(pushed: string) | Pull(pulled: string)

  /** One update operator applied to one document; only `participants` changes. */
  function Apply(d: Document, op: Update): (r: Document)
    ensures r.id == d.id && r.description == d.description
    ensures r.schedule == d.schedule && r.maxParticipants == d.maxParticipants
    ensures op.Push? ==> r.participants == d.participants + [op.pushed]
    ensures op.Pull? ==> r.participants == Pulled(d.participants, op.pulled)
  {
    match op
    case Push(x) => d.(participants := d.participants + [x])
    case Pull(x) => d.(participants := Pulled(d.participants, x))
  }

  /**
   `update_one({"_id": id}, op)`: the matching document, if any, is updated;
   when nothing matches the collection is left as it was.
   */
  function Updated(c: Documents, id: string, op: Update): (r: Documents)
    ensures r.Keys == c.Keys
    ensures forall k :: k in c && k != id ==> r[k] == c[k]
    ensures id in c ==> r[id] == Apply(c[id], op)
    ensures KeyedById(c) ==> KeyedById(r)
  {
    if id in c then c[id := Apply(c[id], op)] else c
  }

  /** The in-memory collection object the handlers share. */
  class Collection {
    var documents: Documents

    ghost predicate Valid()
      reads this
    {
      KeyedById(documents)
    }

    /** A handle on a collection that already holds `initial`. */
    constructor (initial: Documents)
      requires KeyedById(initial)
      ensures Valid() && documents == initial
    {
      documents := initial;
    }

    /** `find_one({"_id": id})`; reads the collection and changes nothing. */
    method FindOne(id: string) returns (d: Option<Document>)
      requires Valid()
      ensures d.Some? <==> id in documents
      ensures d.Some? ==> d.value == documents[id] && d.value.id == id
    {
      if id in documents {
        d := Some(documents[id]);
      } else {
        d := None;
      }
    }

    /** `update_one({"_id": id}, op)`. */
    method UpdateOne(id: string, op: Update)
      requires Valid()
      modifies this
      ensures Valid()
      ensures documents == Updated(old(documents), id, op)
    {
      documents := Updated(documents, id, op);
    }
  }

  lemma {:induction false} NoDuplicatesPush(s: seq<string>, x: string)
    requires NoDuplicates(s) && x !in s
    ensures NoDuplicates(s + [x])
  {
    forall i, j | 0 <= i < j < |s + [x]|
      ensures (s + [x])[i] != (s + [x])[j]
    {
      if j == |s| {
        assert (s + [x])[i] == s[i];
      } else {
        assert (s + [x])[i] == s[i] && (s + [x])[j] == s[j];
      }
    }
  }

  lemma {:induction false} NoDuplicatesPull(s: seq<string>, x: string)
    requires NoDuplicates(s)
    ensures NoDuplicates(Pulled(s, x))
  {
    if s != [] {
      assert NoDuplicates(s[1..]) by {
        forall i, j | 0 <= i < j < |s[1..]| ensures s[1..][i] != s[1..][j] {
          assert s[1..][i] == s[i + 1] && s[1..][j] == s[j + 1];
        }
      }
      NoDuplicatesPull(s[1..], x);
      if s[0] != x {
        var t := Pulled(s[1..], x);
        assert s[0] !in s[1..] by {
          forall k | 0 <= k < |s[1..]| ensures s[1..][k] != s[0] {
            assert s[1..][k] == s[k + 1];
          }
        }
        assert s[0] !in t;
        forall i, j | 0 <= i < j < |[s[0]] + t|
          ensures ([s[0]] + t)[i] != ([s[0]] + t)[j]
        {
          if i == 0 {
            assert ([s[0]] + t)[j] == t[j - 1];
          } else {
            assert ([s[0]] + t)[i] == t[i - 1] && ([s[0]] + t)[j] == t[j - 1];
          }
        }
      }
    }
  }

  /** Pulling a value that is not there changes nothing. */
  lemma {:induction false} PulledAbsent(s: seq<string>, x: string)
    requires x !in s
    ensures Pulled(s, x) == s
  {
    if s != [] {
      assert s[1..] + [] == s[1..];
      assert x !in s[1..];
      PulledAbsent(s[1..], x);
      assert [s[0]] + s[1..] == s;
    }
  }

  /** `$pull` works element by element: it distributes over concatenation. */
  lemma {:induction false} PulledConcat(a: seq<string>, b: seq<string>, x: string)
    ensures Pulled(a + b, x) == Pulled(a, x) + Pulled(b, x)
  {
    if a != [] {
      assert (a + b)[1..] == a[1..] + b;
      assert (a + b)[0] == a[0];
      PulledConcat(a[1..], b, x);
    } else {
      assert a + b == b;
    }
  }

  /** Pulling the value just pushed, when it was absent before, restores the list. */
  lemma PulledAfterPush(s: seq<string>, x: string)
    requires x !in s
    ensures Pulled(s + [x], x) == s
  {
    PulledConcat(s, [x], x);
    PulledAbsent(s, x);
    assert Pulled([x], x) == [];
  }

  /**
   In a list without duplicates, pulling a value that sits at index `i` removes
   exactly that one entry and keeps the rest in order.
   */
  lemma PulledAtIndex(s: seq<string>, i: nat, x: string)
    requires NoDuplicates(s) && i < |s| && s[i] == x
    ensures Pulled(s, x) == s[..i] + s[i + 1..]
    ensures |Pulled(s, x)| == |s| - 1
  {
    assert s == s[..i] + [s[i]] + s[i + 1..];
    PulledConcat(s[..i] + [s[i]], s[i + 1..], x);
    PulledConcat(s[..i], [s[i]], x);
    assert x !in s[..i] by {
      forall k | 0 <= k < i ensures s[..i][k] != x { assert s[..i][k] == s[k]; }
    }
    var rest := s[i + 1..];
    assert x !in rest by {
      forall k | 0 <= k < |rest| ensures rest[k] != x { assert rest[k] == s[i + 1 + k]; }
    }
    PulledAbsent(s[..i], x);
    PulledAbsent(s[i + 1..], x);
    assert Pulled([s[i]], x) == [];
  }
}
