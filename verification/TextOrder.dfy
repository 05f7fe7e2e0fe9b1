/** The order in which a `BTreeMap<String, _>` visits its keys. */
module TextOrder {

  /** Lexicographic order by code point (which is also the order of the UTF-8 bytes). */
  predicate Less(a: string, b: string)
    decreases |a|
  {
    |b| > 0 && (|a| == 0 || a[0] < b[0] || (a[0] == b[0] && Less(a[1..], b[1..])))
  }

  lemma {:induction false} LessIsTransitive(a: string, b: string, c: string)
    requires Less(a, b) && Less(b, c)
    ensures Less(a, c)
    decreases |a|
  {
    if |a| > 0 && a[0] == b[0] && b[0] == c[0] {
      LessIsTransitive(a[1..], b[1..], c[1..]);
    }
  }

  lemma {:induction false} LessIsIrreflexive(a: string)
    ensures !Less(a, a)
    decreases |a|
  {
    if |a| > 0 {
      LessIsIrreflexive(a[1..]);
    }
  }

  lemma {:induction false} LessIsTotal(a: string, b: string)
    ensures Less(a, b) || a == b || Less(b, a)
    decreases |a|
  {
    if |a| > 0 && |b| > 0 && a[0] == b[0] {
      LessIsTotal(a[1..], b[1..]);
      assert a[1..] == b[1..] ==> a == [a[0]] + a[1..] == [b[0]] + b[1..] == b;
    }
  }

  /** The order of a dictionary: a proper prefix comes first, otherwise the first difference decides. */
  lemma {:induction false} LessIsLexicographic(a: string, b: string)
    ensures Less(a, b) <==> a < b || exists i :: (0 <= i < |a| && i < |b| && a[..i] == b[..i] && a[i] < b[i])
    decreases |a|
  {
    if |a| > 0 && |b| > 0 {
      if a[0] == b[0] {
        var restA, restB := a[1..], b[1..];
        LessIsLexicographic(restA, restB);
        assert a == [a[0]] + restA && b == [b[0]] + restB;
        if i :| 0 <= i < |a| && i < |b| && a[..i] == b[..i] && a[i] < b[i] {
          assert restA[..i - 1] == a[..i][1..] == b[..i][1..] == restB[..i - 1] && restA[i - 1] < restB[i - 1];
        }
        if i :| 0 <= i < |restA| && i < |restB| && restA[..i] == restB[..i] && restA[i] < restB[i] {
          assert a[..i + 1] == [a[0]] + restA[..i] == [b[0]] + restB[..i] == b[..i + 1] && a[i + 1] < b[i + 1];
        }
        assert a < b <==> restA < restB;
      } else if a[0] < b[0] {
        assert a[..0] == b[..0];
      } else {
        SamePrefixSameHead(a, b);
      }
    } else if |b| > 0 {
      assert a < b;
    }
  }

  lemma SamePrefixSameHead(a: string, b: string)
    requires |a| > 0 && |b| > 0
    ensures forall i :: 0 < i <= |a| && i <= |b| && a[..i] == b[..i] ==> a[0] == b[0]
  {
    forall i | 0 < i <= |a| && i <= |b| && a[..i] == b[..i] ensures a[0] == b[0] {
      assert a[..i][0] == b[..i][0];
    }
  }

  predicate StrictlySorted(keys: seq<string>) {
    forall i, j :: 0 <= i < j < |keys| ==> Less(keys[i], keys[j])
  }

  /** A set of keys has one sorted list. */
  lemma {:induction false} SortedListIsUnique(a: seq<string>, b: seq<string>)
    requires StrictlySorted(a) && StrictlySorted(b) && forall k :: k in a <==> k in b
    ensures a == b
    decreases |a|
  {
    hide Less;
    if |a| == 0 || |b| == 0 {
      NoKeysNoList(a, b);
    } else {
      var m, n := |a| - 1, |b| - 1;
      LastIsGreatest(a, b);
      LastIsGreatest(b, a);
      if a[m] != b[n] {
        LessIsTransitive(a[m], b[n], a[m]);
        LessIsIrreflexive(a[m]);
      }
      forall k ensures k in a[..m] <==> k in b[..n] {
        WithoutLastKey(a, k);
        WithoutLastKey(b, k);
      }
      SortedListIsUnique(a[..m], b[..n]);
      assert a == a[..m] + [a[m]] && b == b[..n] + [b[n]];
    }
  }

  lemma NoKeysNoList(a: seq<string>, b: seq<string>)
    requires forall k :: k in a <==> k in b
    ensures a == [] <==> b == []
  {
    if a != [] {
      assert a[0] in b;
    }
    if b != [] {
      assert b[0] in a;
    }
  }

  lemma LastIsGreatest(a: seq<string>, b: seq<string>)
    requires StrictlySorted(b) && |a| > 0 && |b| > 0 && a[|a| - 1] in b
    ensures a[|a| - 1] == b[|b| - 1] || Less(a[|a| - 1], b[|b| - 1])
  {
    hide Less;
  }

  lemma WithoutLastKey(a: seq<string>, k: string)
    requires StrictlySorted(a) && |a| > 0
    ensures k in a[..|a| - 1] <==> k in a && k != a[|a| - 1]
  {
    hide Less;
    LessIsIrreflexive(k);
    assert a == a[..|a| - 1] + [a[|a| - 1]];
  }

  lemma SortedKeysAreDistinct(keys: seq<string>, i: nat, j: nat)
    requires StrictlySorted(keys) && i < j < |keys|
    ensures keys[i] != keys[j]
  {
    LessIsIrreflexive(keys[i]);
  }

  /** Inserting a key into a sorted map; an existing key stays where it is. */
  function InsertKey(keys: seq<string>, key: string): (r: seq<string>)
    requires StrictlySorted(keys)
    ensures StrictlySorted(r)
    ensures forall k :: k in r <==> k in keys || k == key
    decreases |keys|
  {
    if |keys| == 0 then [key]
    else if key == keys[0] then keys
    else if Less(key, keys[0]) then
      assert forall i :: 0 <= i < |keys| ==> Less(key, keys[i]) by {
        forall i | 0 < i < |keys| ensures Less(key, keys[i]) { LessIsTransitive(key, keys[0], keys[i]); }
      }
      [key] + keys
    else
      LessIsTotal(key, keys[0]);
      var rest := InsertKey(keys[1..], key);
      assert forall k :: k in keys <==> k == keys[0] || k in keys[1..];
      assert forall i :: 0 <= i < |rest| ==> Less(keys[0], rest[i]) by {
        forall i | 0 <= i < |rest| ensures Less(keys[0], rest[i]) { assert rest[i] in rest; }
      }
      [keys[0]] + rest
  }
}
