/** The values that cross the boundary between the Buzz virtual machine and
    the native closures of the UAV bridge: the objects a script passes as
    arguments, the tables a publisher builds, the global symbol table it
    stores them in, and the errors the argument checks raise. */
module BuzzValues {

  /** An unsigned 8-bit integer (`uint8_t`), the type of the flight status. */
  newtype Byte = x: int | 0 <= x < 256

  /** A Buzz object as a native closure sees it on the VM stack. */
  datatype BuzzObj =
    | NilObj
    | IntObj(i: int)
    | FloatObj(f: real)
    | StringObj(s: string)
    | TableObj(t: map<string, BuzzObj>)
    | ClosureObj(ref: nat)
    | UserdataObj(ref: nat)

  /** A Buzz table whose keys are strings. */
  type Table = map<string, BuzzObj>

  /** The VM's global symbol table, written by `gstore`. */
  type Globals = map<string, BuzzObj>

  /** What `buzzvm_lnum_assert` and `buzzvm_type_assert` report on failure.
      `NotAFloat` numbers the offending argument by its position in the call
      (1 for the first argument), not by the stack index the macro is given. */
  datatype ArgError =
    | WrongArgCount(expected: nat, actual: nat)
    | NotAFloat(local: nat)

  /** The VM state a native closure leaves behind: ready, or in error. */
  datatype Outcome = Pass | Fail(error: ArgError)

  /** The keys that a sequence of table puts writes. */
  function KeysOf(entries: seq<(string, BuzzObj)>): set<string>
  {
    set i | 0 <= i < |entries| :: entries[i].0
  }

  /** No put after position `i` writes the key written at `i`. */
  predicate LastPut(entries: seq<(string, BuzzObj)>, i: nat)
    requires i < |entries|
  {
    forall j :: i < j < |entries| ==> entries[j].0 != entries[i].0
  }

  /** The keys of a non-empty run of puts: the first key and those of the rest. */
  lemma KeysOfCons(entries: seq<(string, BuzzObj)>)
    requires entries != []
    ensures KeysOf(entries) == {entries[0].0} + KeysOf(entries[1..])
  {
    forall k | k in KeysOf(entries) ensures k in {entries[0].0} + KeysOf(entries[1..]) {
      var i :| 0 <= i < |entries| && entries[i].0 == k;
      if i > 0 { assert entries[1..][i - 1].0 == k; }
    }
    forall k | k in KeysOf(entries[1..]) ensures k in KeysOf(entries) {
      var i :| 0 <= i < |entries[1..]| && entries[1..][i].0 == k;
      assert entries[i + 1].0 == k;
    }
  }

  /** A last put stays a last put once the first entry is dropped, and a first
      entry that is a last put has a key no later put writes. */
  lemma LastPutTail(entries: seq<(string, BuzzObj)>)
    requires entries != []
    ensures forall i :: 0 < i < |entries| && LastPut(entries, i) ==> LastPut(entries[1..], i - 1)
    ensures LastPut(entries, 0) ==> entries[0].0 !in KeysOf(entries[1..])
  {
    forall i | 0 < i < |entries| && LastPut(entries, i) ensures LastPut(entries[1..], i - 1) {
      forall j | i - 1 < j < |entries[1..]| ensures entries[1..][j].0 != entries[1..][i - 1].0 {
        assert entries[1..][j] == entries[j + 1];
      }
    }
    if LastPut(entries, 0) {
      forall j | 0 <= j < |entries[1..]| ensures entries[1..][j].0 != entries[0].0 {
        assert entries[1..][j] == entries[j + 1];
      }
    }
  }

  /** The table that results from `dup; pushs key; push value; tput`, once per
      entry and in order, on table `t`: every key is written, the last put of
      a key decides its value, and keys nobody puts keep their old value. */
  function PutAll(t: Table, entries: seq<(string, BuzzObj)>): (r: Table)
    ensures r.Keys == t.Keys + KeysOf(entries)
    ensures forall i :: 0 <= i < |entries| && LastPut(entries, i) ==> r[entries[i].0] == entries[i].1
    ensures forall k :: k in t && k !in KeysOf(entries) ==> r[k] == t[k]
    decreases |entries|
  {
    if entries == [] then t
    else
      KeysOfCons(entries);
      LastPutTail(entries);
      PutAll(t[entries[0].0 := entries[0].1], entries[1..])
  }

  /** One put, then the rest: the first step of `PutAll`. */
  lemma PutAllCons(t: Table, key: string, value: BuzzObj, rest: seq<(string, BuzzObj)>)
    ensures PutAll(t, [(key, value)] + rest) == PutAll(t[key := value], rest)
  {
    assert ([(key, value)] + rest)[1..] == rest;
  }

  /** `gstore`: bind a table to a global name, replacing any previous binding. */
  function Store(g: Globals, name: string, t: Table): (r: Globals)
    ensures r.Keys == g.Keys + {name} && r[name] == TableObj(t)
    ensures forall k :: k in g && k != name ==> r[k] == g[k]
  {
    g[name := TableObj(t)]
  }
}
