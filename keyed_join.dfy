/**
 * An abstraction of d3's keyed data join (`selection.data(values, key)`), as
 * the plugin uses it for its mean, outlier and data-point circles: an incoming
 * key that no element carries enters, one that an element carries updates that
 * element, a repeated key is dropped after its first occurrence, and elements
 * whose key is not among the incoming keys exit.
 */
module KeyedJoin {

  datatype Joined<K> = Joined(enter: seq<K>, update: seq<K>, exit: set<K>)

  /** No key occurs twice. */
  predicate Distinct<K(==)>(s: seq<K>)
  {
    forall i, j :: 0 <= i < j < |s| ==> s[i] != s[j]
  }

  function Elements<K>(s: seq<K>): set<K>
  {
    set x | x in s
  }

  /**
   * The entering and updating keys of `incoming`, in order, skipping any key
   * already met (`seen`).
   */
  function Walk<K(==)>(existing: set<K>, incoming: seq<K>, seen: set<K>): (r: (seq<K>, seq<K>))
    ensures Elements(r.0) == Elements(incoming) - seen - existing
    ensures Elements(r.1) == (Elements(incoming) - seen) * existing
    ensures Distinct(r.0) && Distinct(r.1)
    ensures existing == {} ==> r.1 == []
  {
    if |incoming| == 0 then ([], [])
    else
      var k := incoming[0];
      var rest := Walk(existing, incoming[1..], seen + {k});
      assert Elements(incoming) == {k} + Elements(incoming[1..]) by {
        assert incoming == [k] + incoming[1..];
      }
      if k in seen then rest
      else if k in existing then
        Prepend(k, rest.1);
        (rest.0, [k] + rest.1)
      else
        Prepend(k, rest.0);
        ([k] + rest.0, rest.1)
  }

  /** Putting a new key in front keeps a sequence free of repeats. */
  lemma Prepend<K>(k: K, s: seq<K>)
    requires Distinct(s) && k !in Elements(s)
    ensures Distinct([k] + s) && Elements([k] + s) == {k} + Elements(s)
  {
    var t := [k] + s;
    forall i, j | 0 <= i < j < |t| ensures t[i] != t[j] {
      assert t[j] == s[j - 1];
      if i > 0 {
        assert t[i] == s[i - 1];
      }
    }
  }

  /** `selection.data(incoming, key)` over elements that carry the keys `existing`. */
  function Join<K(==)>(existing: set<K>, incoming: seq<K>): (j: Joined<K>)
  {
    var w := Walk(existing, incoming, {});
    Joined(w.0, w.1, existing - Elements(incoming))
  }

  /**
   * The join partitions the keys: every incoming key either enters or updates,
   * every existing key either updates or exits, each key once.
   */
  lemma JoinPartitions<K>(existing: set<K>, incoming: seq<K>)
    ensures var j := Join(existing, incoming);
      && Elements(j.enter) + Elements(j.update) == Elements(incoming)
      && Elements(j.update) + j.exit == existing
      && Elements(j.enter) !! existing
      && Elements(j.update) !! j.exit
      && Distinct(j.enter) && Distinct(j.update)
  {
  }

  /** On an empty group every distinct key enters once, in first-occurrence order. */
  lemma {:induction false} JoinFresh<K>(incoming: seq<K>)
    ensures var j := Join({}, incoming);
      && j.update == [] && j.exit == {}
      && Elements(j.enter) == Elements(incoming)
      && |j.enter| == |Elements(incoming)|
  {
    var j := Join({}, incoming);
    DistinctCard(j.enter);
  }

  /** A sequence without repeats has as many elements as its set. */
  lemma {:induction false} DistinctCard<K>(s: seq<K>)
    requires Distinct(s)
    ensures |Elements(s)| == |s|
  {
    if |s| > 0 {
      var t := s[1..];
      assert Distinct(t) by {
        forall i, j | 0 <= i < j < |t| ensures t[i] != t[j] {
          assert t[i] == s[i + 1] && t[j] == s[j + 1];
        }
      }
      DistinctCard(t);
      assert s == [s[0]] + t;
      assert Elements(s) == {s[0]} + Elements(t);
      assert s[0] !in Elements(t) by {
        forall k | 0 <= k < |t| ensures t[k] != s[0] {
          assert t[k] == s[k + 1];
        }
      }
    }
  }
}
