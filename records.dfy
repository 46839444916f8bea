/**
 * The job record model: the canonical dictionary shape of a job
 * (`JobBase.create_dict`), the unpacking of a dictionary into a job object
 * (`JobBase.__init__`) and its serialisation back (`JobBase.to_dict`).
 */
module Records {
  import opened Values

  /** The seven keys of a serialised job record. */
  const JobKeys: set<string> := {"id", "user", "name", "timestamp", "experiment", "args", "kwargs"}

  /** The keys in the order in which the constructor reads them from its dictionary. */
  const ReadOrder: seq<string> := ["id", "name", "user", "timestamp", "args", "kwargs", "experiment"]

  /** Builds a job dictionary: every argument under its own key, with a falsy `args` replaced by `[]` and a falsy `kwargs` by `{}`. */
  function CreateDict(id: Value, name: Value, user: Value, timestamp: Value,
                      experiment: Value, args: Value, kwargs: Value): (d: Dict)
    ensures d.Keys == JobKeys
    ensures d["id"] == id && d["name"] == name && d["user"] == user
    ensures d["timestamp"] == timestamp && d["experiment"] == experiment
    ensures Truthy(args) ==> d["args"] == args
    ensures !Truthy(args) ==> d["args"] == EmptyList
    ensures Truthy(kwargs) ==> d["kwargs"] == kwargs
    ensures !Truthy(kwargs) ==> d["kwargs"] == EmptyDict
  {
    map["id" := id, "user" := user, "name" := name, "timestamp" := timestamp,
        "experiment" := experiment, "args" := Or(args, EmptyList), "kwargs" := Or(kwargs, EmptyDict)]
  }

  /** The first of `keys` that `d` lacks, if any. */
  function FirstMissing(keys: seq<string>, d: Dict): (k: Option<string>)
    ensures k.None? <==> forall i :: 0 <= i < |keys| ==> keys[i] in d
    ensures k.Some? ==> exists i :: 0 <= i < |keys| && keys[i] == k.value && keys[i] !in d
                                    && forall j :: 0 <= j < i ==> keys[j] in d
  {
    if keys == [] then None
    else if keys[0] !in d then Some(keys[0])
    else
      var k := FirstMissing(keys[1..], d);
      assert forall i :: 1 <= i < |keys| ==> keys[i] == keys[1..][i - 1];
      k
  }

  /** The key whose lookup raises `KeyError` when a job is built from `d`, or None when all seven are present. */
  function MissingKey(d: Dict): (k: Option<string>)
    ensures k.None? <==> JobKeys <= d.Keys
    ensures k.Some? ==> k.value in JobKeys && k.value !in d
    ensures k.Some? ==> exists i :: 0 <= i < |ReadOrder| && ReadOrder[i] == k.value
                                    && forall j :: 0 <= j < i ==> ReadOrder[j] in d
  {
    assert forall i :: 0 <= i < |ReadOrder| ==> ReadOrder[i] in JobKeys;
    assert JobKeys <= d.Keys <==> forall i :: 0 <= i < |ReadOrder| ==> ReadOrder[i] in d by {
      assert ReadOrder[0] == "id" && ReadOrder[1] == "name" && ReadOrder[2] == "user";
      assert ReadOrder[3] == "timestamp" && ReadOrder[4] == "args" && ReadOrder[5] == "kwargs";
      assert ReadOrder[6] == "experiment";
    }
    FirstMissing(ReadOrder, d)
  }

  /** `JobBase(d).to_dict()`: the seven fields of `d` packed again by `CreateDict`. */
  function Normalized(d: Dict): (r: Dict)
    requires JobKeys <= d.Keys
    ensures IsCanonical(r)
    ensures forall k :: k in JobKeys && k != "args" && k != "kwargs" ==> r[k] == d[k]
    ensures r["args"] == Or(d["args"], EmptyList) && r["kwargs"] == Or(d["kwargs"], EmptyDict)
  {
    CreateDict(d["id"], d["name"], d["user"], d["timestamp"], d["experiment"], d["args"], d["kwargs"])
  }

  /** A dictionary in canonical job form: exactly the seven keys, with `args` and `kwargs` truthy or the empty default. */
  predicate IsCanonical(d: Dict) {
    && d.Keys == JobKeys
    && (Truthy(d["args"]) || d["args"] == EmptyList)
    && (Truthy(d["kwargs"]) || d["kwargs"] == EmptyDict)
  }

  /** Serialising a freshly unpacked dictionary gives it back exactly when it is already canonical. */
  lemma NormalizedFixedPoint(d: Dict)
    requires JobKeys <= d.Keys
    ensures Normalized(d) == d <==> IsCanonical(d)
  {
  }

  /** The round trip: a dictionary with the seven keys and truthy `args` and `kwargs` comes back unchanged. */
  lemma RoundTrip(d: Dict)
    requires d.Keys == JobKeys && Truthy(d["args"]) && Truthy(d["kwargs"])
    ensures Normalized(d) == d
  {
    NormalizedFixedPoint(d);
  }

  /** Serialisation is idempotent after one normalisation. */
  lemma NormalizedIdempotent(d: Dict)
    requires JobKeys <= d.Keys
    ensures IsCanonical(Normalized(d))
    ensures Normalized(Normalized(d)) == Normalized(d)
  {
    NormalizedFixedPoint(Normalized(d));
  }

  /** Keys other than the seven are dropped: two dictionaries that agree on the seven serialise alike. */
  lemma NormalizedIgnoresExtraKeys(d: Dict, e: Dict)
    requires JobKeys <= d.Keys && JobKeys <= e.Keys
    requires forall k :: k in JobKeys ==> d[k] == e[k]
    ensures Normalized(d) == Normalized(e)
  {
  }

  /** A job held in memory, unpacked from its dictionary; its fields are never reassigned. */
  class JobBase {
    const id: Value
    const name: Value
    const user: Value
    const timestamp: Value
    const args: Value
    const kwargs: Value
    const experiment: Value

    /** Unpacks the seven fields of `d`; any other key is ignored. */
    constructor (d: Dict)
      requires MissingKey(d).None?
      ensures id == d["id"] && name == d["name"] && user == d["user"]
      ensures timestamp == d["timestamp"] && args == d["args"]
      ensures kwargs == d["kwargs"] && experiment == d["experiment"]
      ensures Id() == d["id"] && Name() == d["name"] && User() == d["user"]
      ensures Timestamp() == d["timestamp"] && Args() == d["args"] && Kwargs() == d["kwargs"]
      ensures ToDict() == Normalized(d)
    {
      id := d["id"];
      name := d["name"];
      user := d["user"];
      timestamp := d["timestamp"];
      args := d["args"];
      kwargs := d["kwargs"];
      experiment := d["experiment"];
    }

    /** Serialises the job: the fields under their keys, with the `args` and `kwargs` defaults filled in. */
    function ToDict(): (d: Dict)
      ensures IsCanonical(d)
      ensures d["id"] == id && d["name"] == name && d["user"] == user
      ensures d["timestamp"] == timestamp && d["experiment"] == experiment
      ensures d["args"] == Or(args, EmptyList)
      ensures d["kwargs"] == Or(kwargs, EmptyDict)
    {
      CreateDict(id, name, user, timestamp, experiment, args, kwargs)
    }

    /** The creation time, as serialised. */
    function Timestamp(): (t: Value)
      ensures t == ToDict()["timestamp"]
    { timestamp }

    /** The creating user, as serialised. */
    function User(): (u: Value)
      ensures u == ToDict()["user"]
    { user }

    /** The job id, as serialised. */
    function Id(): (i: Value)
      ensures i == ToDict()["id"]
    { id }

    /** The job name, as serialised. */
    function Name(): (n: Value)
      ensures n == ToDict()["name"]
    { name }

    /** The positional args as stored; serialising replaces a falsy value by `[]`. */
    function Args(): (a: Value)
      ensures ToDict()["args"] == Or(a, EmptyList)
      ensures Truthy(a) ==> a == ToDict()["args"]
    { args }

    /** The keyword args as stored; serialising replaces a falsy value by `{}`. */
    function Kwargs(): (k: Value)
      ensures ToDict()["kwargs"] == Or(k, EmptyDict)
      ensures Truthy(k) ==> k == ToDict()["kwargs"]
    { kwargs }
  }

  /** `JobBase(d)` with its exception: `KeyError` for the first key the constructor fails to find. */
  method NewJobBase(d: Dict) returns (r: Result<JobBase>)
    ensures r.Err? <==> MissingKey(d).Some?
    ensures r.Err? ==> r.error == KeyError(MissingKey(d).value)
    ensures r.Ok? ==> fresh(r.value) && r.value.ToDict() == Normalized(d)
    ensures r.Ok? ==> r.value.id == d["id"] && r.value.name == d["name"] && r.value.user == d["user"]
    ensures r.Ok? ==> r.value.timestamp == d["timestamp"] && r.value.args == d["args"]
    ensures r.Ok? ==> r.value.kwargs == d["kwargs"] && r.value.experiment == d["experiment"]
  {
    var missing := MissingKey(d);
    if missing.Some? {
      r := Err(KeyError(missing.value));
    } else {
      var job := new JobBase(d);
      r := Ok(job);
    }
  }
}
