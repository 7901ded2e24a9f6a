/** The value records the library returns (the dataclasses of its `types` module),
    and the insertion-ordered dictionary that several of them hold. */
module DoltTypes {
  import opened Base

  /** A Python `dict` with string keys: the keys in insertion order and the mapping. */
  datatype ODict<V> = ODict(keys: seq<string>, vals: map<string, V>) {

    ghost predicate Valid() {
      && (forall i, j :: 0 <= i < j < |keys| ==> keys[i] != keys[j])
      && (forall k :: k in vals <==> k in keys)
    }

    /** `d[k] = v`: a new key goes last, an existing key keeps its place. */
    function Put(k: string, v: V): (d: ODict<V>)
      ensures Valid() ==> d.Valid()
      ensures d.vals == vals[k := v]
      ensures d.keys == if k in vals then keys else keys + [k]
    {
      if k in vals then ODict(keys, vals[k := v]) else ODict(keys + [k], vals[k := v])
    }
  }

  function EmptyDict<V>(): (d: ODict<V>)
    ensures d.Valid() && d.keys == [] && d.vals == map[]
  {
    ODict([], map[])
  }

  /** The working-set summary: clean, or which tables are modified or new, each mapped
      to whether the change is staged. */
  datatype Status = Status(isClean: bool, modifiedTables: ODict<bool>, addedTables: ODict<bool>)

  /** A table of the listing; `root` and `rowCnt` default to `None` and `system` to false. */
  datatype Table = Table(name: string, root: Option<string>, rowCnt: Option<int>, system: bool)

  datatype Branch = Branch(
    name: string,
    hash: string,
    latestCommitter: Option<string>,
    latestCommitterEmail: Option<string>,
    latestCommitDate: Option<string>,
    latestCommitMessage: Option<string>)

  datatype Remote = Remote(name: string, url: string)

  datatype KeyPair = KeyPair(publicKey: string, keyId: string, active: bool)

  /** One record of a structured query result: column name to value. */
  type Row = map<string, string>
}
