/** The durable blob store and the function host's scratch directory, as seen
    by the handlers: payload shapes, the key-naming contract, the log of
    outward effects, and the `Platform` object that holds all three. */
module Storage {
  import opened Runtime

  /** A JSON object with string values, as stored by `setJSON`. */
  type Record = map<string, string>

  /** Audio as a file holds it: a copy of a stored payload, or the output of
      the external processor applied to another sound with the filter graph
      of the catalogue theme named `theme`. */
  datatype Sound = Recording(source: Value) | Remix(input: Sound, theme: string)

  /** What one store key holds. */
  datatype Value =
    | AudioBlob(bytes: seq<bv8>)
    | JsonBlob(record: Record)
    | ZipBlob(entries: seq<Entry>)

  /** One named archive entry, in the order it was added. */
  datatype Entry = Entry(name: string, content: Content)

  datatype Content = Text(text: string) | Audio(sound: Sound)

  /** An outward effect, in the order it was attempted; `applied` is false
      when the call failed and left the store as it was. */
  datatype Op =
    | Write(key: string, value: Value, applied: bool)
    | Erase(key: string, applied: bool)
    | Trigger(jobId: string)

  /** The three keys of a job. */
  function AudioKey(jobId: string): string
  {
    jobId
  }

  function MetadataKey(jobId: string): string
  {
    jobId + "-metadata"
  }

  function ResultKey(jobId: string): string
  {
    jobId + "-result"
  }

  /** One job's three keys are pairwise distinct, and each key names one job. */
  lemma KeyContract(a: string, b: string)
    ensures AudioKey(a) != MetadataKey(a) && AudioKey(a) != ResultKey(a) && MetadataKey(a) != ResultKey(a)
    ensures MetadataKey(a) == MetadataKey(b) ==> a == b
    ensures ResultKey(a) == ResultKey(b) ==> a == b
    ensures MetadataKey(a) != ResultKey(b)
  {
    if MetadataKey(a) == MetadataKey(b) {
      assert |a| == |b|;
      assert a == MetadataKey(a)[..|a|] == MetadataKey(b)[..|b|] == b;
    }
    if ResultKey(a) == ResultKey(b) {
      assert |a| == |b|;
      assert a == ResultKey(a)[..|a|] == ResultKey(b)[..|b|] == b;
    }
    var m, r := MetadataKey(a), ResultKey(b);
    assert m[|m| - 1] == 'a' && r[|r| - 1] == 't';
  }

  function Apply(store: map<string, Value>, op: Op): map<string, Value>
  {
    match op
    case Write(key, value, applied) => if applied then store[key := value] else store
    case Erase(key, applied) => if applied then store - {key} else store
    case Trigger(_) => store
  }

  /** The store after a sequence of effects. */
  function Applied(store: map<string, Value>, ops: seq<Op>): map<string, Value>
  {
    if ops == [] then store else Apply(Applied(store, ops[..|ops| - 1]), ops[|ops| - 1])
  }

  lemma AppliedSnoc(store: map<string, Value>, ops: seq<Op>, op: Op)
    ensures Applied(store, ops + [op]) == Apply(Applied(store, ops), op)
  {
    assert (ops + [op])[..|ops|] == ops;
  }

  /** The store after two steps. */
  lemma AppliedPair(store: map<string, Value>, first: Op, second: Op)
    ensures Applied(store, [first, second]) == Apply(Apply(store, first), second)
  {
    AppliedSnoc(store, [], first);
    assert [] + [first] == [first];
    AppliedSnoc(store, [first], second);
    assert [first] + [second] == [first, second];
  }

  /** Effects applied in two runs are the effects of the whole run. */
  lemma {:induction false} AppliedAppend(store: map<string, Value>, first: seq<Op>, second: seq<Op>)
    ensures Applied(Applied(store, first), second) == Applied(store, first + second)
    decreases |second|
  {
    if second != [] {
      var last := second[|second| - 1];
      var init := second[..|second| - 1];
      AppliedAppend(store, first, init);
      assert second == init + [last];
      assert first + second == (first + init) + [last];
      AppliedSnoc(store, first + init, last);
      AppliedSnoc(Applied(store, first), init, last);
    } else {
      assert first + second == first;
    }
  }

  /** The store only changes at the keys of applied writes and erasures. */
  lemma {:induction false} AppliedFrame(store: map<string, Value>, ops: seq<Op>, key: string)
    requires forall k :: 0 <= k < |ops| && (ops[k].Write? || ops[k].Erase?) ==> ops[k].key != key || !ops[k].applied
    ensures key in Applied(store, ops) <==> key in store
    ensures key in store ==> Applied(store, ops)[key] == store[key]
  {
    if ops != [] {
      AppliedFrame(store, ops[..|ops| - 1], key);
    }
  }

  /** A read from the store: the call threw, the key is absent (`null`),
      or it holds a value. */
  datatype Read<T> = Threw(message: string) | Missing | Found(got: T)

  /** `store.getJSON(key)`. */
  function GetJson(store: map<string, Value>, key: string, fault: Fault): (r: Read<Record>)
    ensures r.Missing? <==> fault.None? && key !in store
    ensures r.Found? <==> fault.None? && key in store && store[key].JsonBlob?
    ensures r.Found? ==> r.got == store[key].record
  {
    if fault.Some? then Threw(fault.value)
    else if key !in store then Missing
    else match store[key]
      case JsonBlob(record) => Found(record)
      case _ => Threw(NotJson)
  }

  /** `store.get(key)` as a stream or a buffer. */
  function GetBlob(store: map<string, Value>, key: string, fault: Fault): (r: Read<Value>)
    ensures r.Missing? <==> fault.None? && key !in store
    ensures r.Found? <==> fault.None? && key in store
    ensures r.Found? ==> r.got == store[key]
  {
    if fault.Some? then Threw(fault.value)
    else if key !in store then Missing
    else Found(store[key])
  }

  /** The paths listed in `paths`. */
  function Members(paths: seq<string>): set<string>
  {
    set p | p in paths
  }

  /** The state the handlers share: the blob store, the files in the scratch
      directory, and the log of every store write, deletion and trigger. */
  class Platform {
    var store: map<string, Value>
    var tmp: map<string, Sound>
    var log: seq<Op>

    constructor (store0: map<string, Value>, tmp0: map<string, Sound>)
      ensures store == store0 && tmp == tmp0 && log == []
    {
      store := store0;
      tmp := tmp0;
      log := [];
    }

    /** `store.set(key, value)` or `store.setJSON(key, value)`. */
    method Set(key: string, value: Value, fault: Fault) returns (err: Fault)
      modifies this`store, this`log
      ensures err == fault
      ensures log == old(log) + [Write(key, value, fault.None?)]
      ensures store == Apply(old(store), Write(key, value, fault.None?))
      ensures store == if fault.None? then old(store)[key := value] else old(store)
    {
      err := fault;
      log := log + [Write(key, value, fault.None?)];
      if fault.None? {
        store := store[key := value];
      }
    }

    /** `store.delete(key)`. */
    method Delete(key: string, fault: Fault) returns (err: Fault)
      modifies this`store, this`log
      ensures err == fault
      ensures log == old(log) + [Erase(key, fault.None?)]
      ensures store == Apply(old(store), Erase(key, fault.None?))
      ensures store == if fault.None? then old(store) - {key} else old(store)
    {
      err := fault;
      log := log + [Erase(key, fault.None?)];
      if fault.None? {
        store := store - {key};
      }
    }

    /** The POST that starts background processing of a job. */
    method Post(jobId: string)
      modifies this`log
      ensures log == old(log) + [Trigger(jobId)]
    {
      log := log + [Trigger(jobId)];
    }

    /** A file written in the scratch directory. */
    method Save(path: string, sound: Sound)
      modifies this`tmp
      ensures tmp == old(tmp)[path := sound]
    {
      tmp := tmp[path := sound];
    }

    /** `paths.forEach(p => fs.existsSync(p) && fs.unlinkSync(p))`. */
    method Unlink(paths: seq<string>)
      modifies this`tmp
      ensures tmp == old(tmp) - Members(paths)
    {
      var i := 0;
      while i < |paths|
        invariant 0 <= i <= |paths|
        invariant tmp == old(tmp) - Members(paths[..i])
      {
        assert Members(paths[..i + 1]) == Members(paths[..i]) + {paths[i]} by {
          assert paths[..i + 1] == paths[..i] + [paths[i]];
        }
        if paths[i] in tmp {
          tmp := tmp - {paths[i]};
        }
        i := i + 1;
      }
      assert paths[..i] == paths;
    }
  }
}
