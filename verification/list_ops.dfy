/** Keyed-list operations shared by the shortcut, task and note lists: all
    three are arrays of records with a string `id`, filtered by id. */
module ListOps {

  /** `list.filter(x => key(x) !== k)`. */
  function WithoutKey<T(!new)>(list: seq<T>, key: T -> string, k: string): (r: seq<T>)
    ensures |r| <= |list|
    ensures forall x :: x in r <==> x in list && key(x) != k
  {
    if list == [] then []
    else (if key(list[0]) == k then [] else [list[0]]) + WithoutKey(list[1..], key, k)
  }

  /** Filtering works piece by piece, so it keeps the relative order of the
      records it keeps. */
  lemma {:induction false} WithoutKeyConcat<T(!new)>(a: seq<T>, b: seq<T>, key: T -> string, k: string)
    ensures WithoutKey(a + b, key, k) == WithoutKey(a, key, k) + WithoutKey(b, key, k)
  {
    if a == [] {
      assert a + b == b;
    } else {
      assert (a + b)[0] == a[0] && (a + b)[1..] == a[1..] + b;
      WithoutKeyConcat(a[1..], b, key, k);
    }
  }

  /** A list without the key is left as it is. */
  lemma {:induction false} WithoutKeyAbsent<T(!new)>(list: seq<T>, key: T -> string, k: string)
    requires forall x :: x in list ==> key(x) != k
    ensures WithoutKey(list, key, k) == list
  {
    if list != [] {
      assert list[0] in list;
      WithoutKeyAbsent(list[1..], key, k);
    }
  }

  /** No two records share a key. */
  predicate UniqueKeys<T>(list: seq<T>, key: T -> string) {
    forall i, j :: 0 <= i < j < |list| ==> key(list[i]) != key(list[j])
  }

  /** Filtering keeps keys unique, and with unique keys it removes exactly
      one record when the key is present. */
  lemma {:induction false} WithoutKeyUnique<T(!new)>(list: seq<T>, key: T -> string, k: string)
    requires UniqueKeys(list, key)
    ensures UniqueKeys(WithoutKey(list, key, k), key)
    ensures |WithoutKey(list, key, k)| == if exists x :: x in list && key(x) == k then |list| - 1 else |list|
  {
    if list != [] {
      var rest := WithoutKey(list[1..], key, k);
      assert UniqueKeys(list[1..], key);
      WithoutKeyUnique(list[1..], key, k);
      forall j | 0 <= j < |rest| ensures key(rest[j]) != key(list[0]) {
        assert rest[j] in rest;
        var p :| 0 <= p < |list[1..]| && list[1..][p] == rest[j];
        assert list[p + 1] == rest[j];
      }
      if key(list[0]) == k {
        assert forall x :: x in list[1..] ==> key(x) != k by {
          forall x | x in list[1..] ensures key(x) != k {
            var p :| 0 <= p < |list[1..]| && list[1..][p] == x;
            assert list[p + 1] == x;
          }
        }
      } else {
        assert WithoutKey(list, key, k) == [list[0]] + rest;
        assert (exists x :: x in list && key(x) == k) <==> (exists x :: x in list[1..] && key(x) == k) by {
          assert forall x :: x in list <==> x == list[0] || x in list[1..] by {
            assert list == [list[0]] + list[1..];
          }
        }
      }
    }
  }
}
