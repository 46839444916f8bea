/**
 * Batch expansion of job records (`JobBase.create_dicts`): one record per
 * keyword-argument configuration, named by an ordinal suffix. The uuid
 * generator and the clock are inputs: `ids[i]` and `clock[i]` are the values
 * they deliver for the i-th record.
 */
module Batch {
  import opened Values
  import opened Records

  /** The decimal digit for `d`. */
  function Digit(d: nat): char
    requires d < 10
  {
    ('0' as int + d) as char
  }

  /** Python's `str(n)` for a natural number: its decimal digits, most significant first, without leading zeros. */
  function DecimalString(n: nat): (s: string)
    ensures |s| >= 1
    ensures forall i :: 0 <= i < |s| ==> '0' <= s[i] <= '9'
    ensures s[0] == '0' ==> n == 0
    ensures |s| == 1 <==> n < 10
    decreases n
  {
    if n < 10 then [Digit(n)] else DecimalString(n / 10) + [Digit(n % 10)]
  }

  /** The number a string of decimal digits denotes. */
  function DigitsValue(s: string): nat
    requires forall i :: 0 <= i < |s| ==> '0' <= s[i] <= '9'
  {
    if s == [] then 0
    else DigitsValue(s[..|s| - 1]) * 10 + (s[|s| - 1] as int - '0' as int)
  }

  /** `DecimalString` denotes its argument. */
  lemma {:induction false} DecimalStringValue(n: nat)
    ensures DigitsValue(DecimalString(n)) == n
    decreases n
  {
    var s := DecimalString(n);
    if n >= 10 {
      assert s[..|s| - 1] == DecimalString(n / 10);
      DecimalStringValue(n / 10);
    }
  }

  /** Distinct numbers have distinct decimal strings. */
  lemma DecimalStringInjective(a: nat, b: nat)
    requires DecimalString(a) == DecimalString(b)
    ensures a == b
  {
    DecimalStringValue(a);
    DecimalStringValue(b);
  }

  /** The name of the i-th record of a batch: `name + '-{}'.format(i)`. */
  function OrdinalName(name: string, i: nat): (n: string)
    ensures |n| == |name| + 1 + |DecimalString(i)|
    ensures n[..|name|] == name && n[|name|] == '-'
    ensures n[|name| + 1..] == DecimalString(i)
  {
    name + "-" + DecimalString(i)
  }

  /** Within one batch, distinct ordinals give distinct names. */
  lemma OrdinalNameInjective(name: string, i: nat, j: nat)
    requires OrdinalName(name, i) == OrdinalName(name, j)
    ensures i == j
  {
    var p := |name| + 1;
    assert DecimalString(i) == OrdinalName(name, i)[p..];
    assert DecimalString(j) == OrdinalName(name, j)[p..];
    DecimalStringInjective(i, j);
  }

  /** The number of records a batch over `configs` yields: the number of configurations, and at least one. */
  function BatchSize(configs: Option<seq<Dict>>): nat {
    if configs.Some? && |configs.value| > 0 then |configs.value| else 1
  }

  /** The configuration list after `create_dicts` fills in its default: an absent or empty list becomes `[{}]`. */
  function NormalizeConfigs(configs: Option<seq<Dict>>): (cs: seq<Dict>)
    ensures |cs| == BatchSize(configs)
    ensures configs.None? || configs.value == [] ==> cs == [map[]]
    ensures configs.Some? && configs.value != [] ==> cs == configs.value
  {
    if configs.None? || |configs.value| == 0 then [map[]] else configs.value
  }

  /**
   * What the i-th record of a batch over the normalised configurations `cs`
   * holds: exactly the seven keys, its own id, timestamp, ordinal name and
   * configuration, and the batch's user, experiment and args (`[]` for falsy args).
   */
  predicate IsBatchRecord(r: Dict, name: string, user: string, experiment: string, cs: seq<Dict>, args: Value,
                          ids: seq<string>, clock: seq<Timestamp>, i: nat)
    requires i < |cs| && i < |ids| && i < |clock|
  {
    && IsCanonical(r)
    && r["id"] == VStr(ids[i]) && r["timestamp"] == VTime(clock[i])
    && r["name"] == VStr(OrdinalName(name, i)) && r["kwargs"] == VDict(cs[i])
    && r["user"] == VStr(user) && r["experiment"] == VStr(experiment)
    && r["args"] == Or(args, EmptyList)
  }

  /** The i-th record of a batch: `create_dict` applied to the i-th id, name, timestamp and configuration. */
  function BatchRecord(name: string, user: string, experiment: string, cs: seq<Dict>, args: Value,
                       ids: seq<string>, clock: seq<Timestamp>, i: nat): (r: Dict)
    requires i < |cs| && i < |ids| && i < |clock|
    ensures IsBatchRecord(r, name, user, experiment, cs, args, ids, clock, i)
  {
    CreateDict(VStr(ids[i]), VStr(OrdinalName(name, i)), VStr(user), VTime(clock[i]),
               VStr(experiment), args, VDict(cs[i]))
  }

  /** `IsBatchRecord` pins the record down: the i-th record of a batch is the only dictionary that satisfies it. */
  lemma BatchRecordUnique(r: Dict, name: string, user: string, experiment: string, cs: seq<Dict>, args: Value,
                          ids: seq<string>, clock: seq<Timestamp>, i: nat)
    requires i < |cs| && i < |ids| && i < |clock|
    requires IsBatchRecord(r, name, user, experiment, cs, args, ids, clock, i)
    ensures r == BatchRecord(name, user, experiment, cs, args, ids, clock, i)
  {
  }

  /** A sequence of records is a batch prefix over `cs`: each record is the record of its position. */
  predicate IsBatch(records: seq<Dict>, name: string, user: string, experiment: string, cs: seq<Dict>, args: Value,
                    ids: seq<string>, clock: seq<Timestamp>)
  {
    && |records| <= |cs| && |records| <= |ids| && |records| <= |clock|
    && forall i :: 0 <= i < |records| ==> IsBatchRecord(records[i], name, user, experiment, cs, args, ids, clock, i)
  }

  /** Two records of one batch never share a name. */
  lemma BatchNamesDistinct(records: seq<Dict>, name: string, user: string, experiment: string, cs: seq<Dict>, args: Value,
                           ids: seq<string>, clock: seq<Timestamp>)
    requires IsBatch(records, name, user, experiment, cs, args, ids, clock)
    ensures forall i, j :: 0 <= i < j < |records| ==> records[i]["name"] != records[j]["name"]
  {
    forall i, j | 0 <= i < j < |records| ensures records[i]["name"] != records[j]["name"] {
      if OrdinalName(name, i) == OrdinalName(name, j) {
        OrdinalNameInjective(name, i, j);
      }
    }
  }

  /** Records of one batch have distinct ids whenever the supplied ids are distinct. */
  lemma BatchIdsDistinct(records: seq<Dict>, name: string, user: string, experiment: string, cs: seq<Dict>, args: Value,
                         ids: seq<string>, clock: seq<Timestamp>)
    requires IsBatch(records, name, user, experiment, cs, args, ids, clock)
    ensures (forall i, j :: 0 <= i < j < |records| ==> ids[i] != ids[j]) ==>
      forall i, j :: 0 <= i < j < |records| ==> records[i]["id"] != records[j]["id"]
  {
  }

  /**
   * `create_dicts(name, user, experiment, configs, args)`, with the uuid
   * generator and the clock supplied as `ids` and `clock`.
   */
  method CreateDicts(name: string, user: string, experiment: string,
                     configs: Option<seq<Dict>>, args: Value,
                     ids: seq<string>, clock: seq<Timestamp>) returns (records: seq<Dict>)
    requires |ids| >= BatchSize(configs) && |clock| >= BatchSize(configs)
    ensures |records| == BatchSize(configs)
    ensures IsBatch(records, name, user, experiment, NormalizeConfigs(configs), args, ids, clock)
    ensures forall i :: 0 <= i < |records| ==> records[i].Keys == JobKeys
    ensures configs.None? || configs.value == [] ==> records[0]["kwargs"] == EmptyDict
    ensures configs.Some? ==> forall i :: 0 <= i < |configs.value| ==> records[i]["kwargs"] == VDict(configs.value[i])
    ensures forall i, j :: 0 <= i < j < |records| ==> records[i]["name"] != records[j]["name"]
    ensures (forall i, j :: 0 <= i < j < |records| ==> ids[i] != ids[j]) ==>
      forall i, j :: 0 <= i < j < |records| ==> records[i]["id"] != records[j]["id"]
  {
    var cs := NormalizeConfigs(configs);
    records := [];
    var i := 0;
    while i < |cs|
      invariant 0 <= i <= |cs|
      invariant |records| == i
      invariant forall k :: 0 <= k < i ==> IsBatchRecord(records[k], name, user, experiment, cs, args, ids, clock, k)
    {
      // yield create_dict(...) for the i-th configuration; its comprehension copy is the same value
      var record := BatchRecord(name, user, experiment, cs, args, ids, clock, i);
      records := records + [record];
      i := i + 1;
    }
    BatchNamesDistinct(records, name, user, experiment, cs, args, ids, clock);
    BatchIdsDistinct(records, name, user, experiment, cs, args, ids, clock);
  }
}
