/** Redis lists of job ids, as the scheduler uses them: RPUSH, LREM with count 1, and the Lua script
    that moves a whole list. Keys are generic, so the same laws serve symbolic and textual keys. */
module RedisLists {

  type Id = string
  type Lists<K> = map<K, seq<Id>>

  /** LRANGE key 0 -1: an absent key is an empty list. */
  function Items<K>(lists: Lists<K>, key: K): seq<Id> {
    if key in lists then lists[key] else []
  }

  /** RPUSH key id */
  function RPush<K>(lists: Lists<K>, key: K, id: Id): Lists<K> {
    lists[key := Items(lists, key) + [id]]
  }

  /** LREM key 1 id, on the list itself */
  function RemoveFirst(list: seq<Id>, id: Id): seq<Id> {
    if list == [] then []
    else if list[0] == id then list[1..]
    else [list[0]] + RemoveFirst(list[1..], id)
  }

  /** LREM takes out exactly one occurrence, if there is one. */
  lemma {:induction false} RemoveFirstTakesOne(list: seq<Id>, id: Id)
    ensures multiset(RemoveFirst(list, id)) == multiset(list) - multiset{id}
    ensures id !in list ==> RemoveFirst(list, id) == list
  {
    if list != [] {
      assert list == [list[0]] + list[1..];
      RemoveFirstTakesOne(list[1..], id);
    }
  }

  /** LREM key 1 id */
  function LRem<K>(lists: Lists<K>, key: K, id: Id): Lists<K> {
    lists[key := RemoveFirst(Items(lists, key), id)]
  }

  /** The Lua script: read the list at `from`, delete it, append what was read to `to`. */
  function Transfer<K>(lists: Lists<K>, from: K, to: K): Lists<K> {
    var ids := Items(lists, from);
    var rest := lists - {from};
    if ids == [] then rest else rest[to := Items(rest, to) + ids]
  }

  /** The script empties the bucket, keeps every id with its multiplicity, keeps the order of arrival
      and touches no third list. */
  lemma TransferMoves<K>(lists: Lists<K>, from: K, to: K, other: K)
    requires from != to && other != from && other != to
    ensures Items(Transfer(lists, from, to), from) == []
    ensures Items(Transfer(lists, from, to), to) == Items(lists, to) + Items(lists, from)
    ensures Items(Transfer(lists, from, to), other) == Items(lists, other)
  {
    var rest := lists - {from};
    assert Items(rest, to) == Items(lists, to);
    assert Items(rest, other) == Items(lists, other);
  }

  /** Removing one id never takes another id out of a list. */
  lemma RemoveFirstKeeps(list: seq<Id>, id: Id, other: Id)
    requires other in list && other != id
    ensures other in RemoveFirst(list, id)
  {
    RemoveFirstTakesOne(list, id);
    assert other in multiset(list);
    assert multiset(RemoveFirst(list, id))[other] == multiset(list)[other];
  }
}
