# caliban job records, in Dafny

This project models the job-record layer of caliban's run history
(`caliban/history/job.py`). The verifier proves properties about that model.

- **Record shape.** `JobBase.create_dict` builds a job dictionary with seven fixed keys. A falsy `args` becomes `[]` and a falsy `kwargs` becomes `{}`. `JobBase.__init__` unpacks a dictionary into seven fields, `to_dict` packs them back, and the accessors return single fields.
- **Batch expansion.** `JobBase.create_dicts` turns a base name, a user, an experiment id, optional configurations and optional shared args into one record per configuration. Records are named `name-0`, `name-1`, and so on. An absent or empty configuration list counts as `[{}]`.
- **Storage-backed job.** `StorageJob` keeps a storage handle. `experiment()` resolves the job's experiment by id in the `experiments` collection. `runs()` is meant to return the records of the `runs` collection whose `job` field equals the job's id. As written it raises `NameError` (see Findings).

Python values are modelled by the `Values.Value` datatype: None, bool, int, float, str, datetime, list and dict with string keys. A float is a `real`. `Values.Truthy` is Python truthiness: None, False, zero, and empty strings, lists and dicts are false, and a datetime is always true. `Values.Or` is `x or default`. A dictionary is `map<string, Value>`. `Normalized(d)` is the value of `JobBase(d).to_dict()`.

The source has two nondeterministic inputs, and both become parameters:

- `uuid.uuid1().hex`: the i-th record of a batch takes `ids[i]`.
- `datetime.now(tz=tzlocal())`: the i-th record takes `clock[i]`, an opaque `Timestamp`.

Id distinctness is a hypothesis on the `ids` supply.

The storage backend is a `Store.Storage` object. It maps each collection name to the sequence of records stored in it. A collection that was never written is empty. Two operations are modelled:

- `get(key)` returns the first record whose `id` field equals `key`, or None. None stands for `NotFound`.
- `where(field, EQ, value)` returns the matching records in collection order.

The module layout follows the source:

| module | covers |
|---|---|
| `Values` | Python values and truthiness |
| `Records` | `create_dict`, `JobBase` |
| `Batch` | `create_dicts` |
| `Store` | the storage capability |
| `StorageJobs` | `StorageJob` |

`StorageJob` inherits from `JobBase` in the source. Here it holds the `JobBase` its constructor builds (`super().__init__(d)`) as the field `job`.

Three facts about the code shape the model:

- A serialised job has seven keys: `experiment` is among them.
- A non-mapping entry in `configs` raises `AttributeError` only when the loop reaches it, after the records before it have been yielded. The model types `configs` as a list of dictionaries, so this case does not arise.
- Whether ids are distinct across calls depends on the generator. The model proves distinctness within one call, assuming that of the supplied ids.

## Model

| member | source | states |
|---|---|---|
| `Values.Truthy` | caliban/history/job.py:93-94 | A value is falsy exactly when it is None, False, 0, 0.0, the empty string, `[]` or `{}`. |
| `Values.Or` | caliban/history/job.py:93-94 | `v or default` is `v` when `v` is truthy and `default` otherwise. It is truthy exactly when one of the two is. |
| `Records.CreateDict` | caliban/history/job.py:75-95 | The result has exactly the keys id, user, name, timestamp, experiment, args and kwargs. Each key holds the argument of the same name, except that a falsy `args` becomes `[]` and a falsy `kwargs` becomes `{}`. |
| `Records.FirstMissing` | caliban/history/job.py:31-37 | Returns None exactly when every key in the list is present. Otherwise it returns the first key in list order that the dictionary lacks. |
| `Records.MissingKey` | caliban/history/job.py:27-37 | Gives the key whose lookup raises `KeyError` when a job is built from `d`. This is the first missing key in the order the constructor reads them. The result is None exactly when all seven job keys are present. |
| `Records.JobBase.constructor` | caliban/history/job.py:27-37 | Each of the seven fields, and each accessor, returns the value stored under its key in `d`. Other keys are ignored. `ToDict()` equals `Normalized(d)`. |
| `Records.JobBase.ToDict` | caliban/history/job.py:39-49 | The result is canonical. It holds every field under its key, with the `args` and `kwargs` defaults filled in. |
| `Records.JobBase.Timestamp` | caliban/history/job.py:51-53 | Returns the creation time, which is what the serialised record holds under `timestamp`. |
| `Records.JobBase.User` | caliban/history/job.py:55-57 | Returns the creating user, which is what the serialised record holds under `user`. |
| `Records.JobBase.Id` | caliban/history/job.py:59-61 | Returns the job id, which is what the serialised record holds under `id`. |
| `Records.JobBase.Name` | caliban/history/job.py:63-65 | Returns the job name, which is what the serialised record holds under `name`. |
| `Records.JobBase.Args` | caliban/history/job.py:67-69 | Returns the positional args as stored. The serialised record holds them, or `[]` when they are falsy. |
| `Records.JobBase.Kwargs` | caliban/history/job.py:71-73 | Returns the keyword args as stored. The serialised record holds them, or `{}` when they are falsy. |
| `Records.Normalized` | caliban/history/job.py:31-49 | `JobBase(d).to_dict()` is canonical. It keeps the id, name, user, timestamp and experiment of `d`, and puts `args or []` and `kwargs or {}`. |
| `Records.NewJobBase` | caliban/history/job.py:27-37 | `JobBase(d)` including its exception: `KeyError(MissingKey(d))` exactly when a key is missing. Otherwise it returns a fresh job whose fields are those of `d`. |
| `Records.NormalizedFixedPoint` | caliban/history/job.py:39-49 | `JobBase(d).to_dict() == d` holds if and only if `d` has exactly the seven keys and its `args` and `kwargs` are each truthy or the empty default. |
| `Records.RoundTrip` | caliban/history/job.py:31-49 | Take a dictionary with exactly the seven keys and truthy `args` and `kwargs`. Unpacking it and serialising it again gives the same dictionary. |
| `Records.NormalizedIdempotent` | caliban/history/job.py:39-49 | `JobBase(d).to_dict()` is canonical. Unpacking and serialising it again changes nothing. |
| `Records.NormalizedIgnoresExtraKeys` | caliban/history/job.py:31-37 | Two dictionaries that agree on the seven job keys serialise to the same record. Any other key is dropped. |
| `Batch.DecimalString` | caliban/history/job.py:114 | `str(i)` for the ordinal. The result is a non-empty string of decimal digits. It has no leading zero unless `i` is 0, and it is one digit long exactly when `i < 10`. |
| `Batch.DecimalStringValue` | caliban/history/job.py:114 | The ordinal suffix denotes `i`: the digits of `DecimalString(i)` read back as `i`. |
| `Batch.DecimalStringInjective` | caliban/history/job.py:114 | Distinct ordinals give distinct suffixes. |
| `Batch.OrdinalNameInjective` | caliban/history/job.py:114 | `name + '-' + str(i)` equals `name + '-' + str(j)` only when `i == j`. |
| `Batch.OrdinalName` | caliban/history/job.py:114 | The i-th name starts with `name`, has `-` right after it, and ends with `DecimalString(i)`, the decimal digits of `i`. Its length is the sum of the three parts. |
| `Batch.NormalizeConfigs` | caliban/history/job.py:108-109 | An absent or empty configuration list becomes `[{}]`. Any other list is kept as it is. The result has as many entries as the batch has records. |
| `Batch.BatchRecord` | caliban/history/job.py:112-120 | The i-th record of a batch has exactly the seven keys, id `ids[i]`, timestamp `clock[i]`, name `name-i` and the i-th configuration as kwargs. It also has the batch's user and experiment, and the shared `args`, or `[]` when that is falsy. |
| `Batch.BatchRecordUnique` | caliban/history/job.py:112-120 | The description of the i-th record is complete: any dictionary that satisfies it is the i-th record. |
| `Batch.BatchNamesDistinct` | caliban/history/job.py:111-120 | In any sequence of batch records, two different records have different names. |
| `Batch.BatchIdsDistinct` | caliban/history/job.py:111-120 | In any sequence of batch records, ids are pairwise distinct whenever the supplied ids are. |
| `Batch.CreateDicts` | caliban/history/job.py:97-120 | Yields `max(n, 1)` records for `n` configurations, in configuration order. The i-th is the i-th record of the batch, so it has the seven keys and `configs[i]` as kwargs. With no configurations, the single record's kwargs is `{}`. Names are pairwise distinct, and ids are too when the supplied ids are. |
| `Store.Select` | caliban/history/job.py:137 | The equality scan `where(field, EQ, value)` returns a record exactly when the collection holds it and it matches. Every record appears in the result no more often than in the collection. |
| `Store.SelectAppend` | caliban/history/job.py:137 | The scan preserves order: scanning `a + b` is scanning `a` followed by scanning `b`. |
| `Store.Find` | caliban/history/job.py:140 | `get(key)` returns None (`NotFound`) exactly when no record has id `key`. Otherwise it returns the first record whose id is `key`. |
| `Store.Storage.Collection` | caliban/history/job.py:137 | Defines the in-memory stand-in's `collection(name)`: the records stored under the name, or the empty sequence for a name never written. The contracts of `Get`, `Where`, `Runs` and `Experiment` are stated in terms of it. |
| `Store.Storage.Where` | caliban/history/job.py:137 | `collection(name).where(field, EQ, value)` returns exactly the records of the collection that match, each no more often than the collection holds it. A collection never written to gives nothing. |
| `Store.Storage.Get` | caliban/history/job.py:140 | `collection(name).get(key)` returns None (`NotFound`) exactly when no record of the collection has id `key`. Otherwise it returns the first record of the collection with that id. |
| `StorageJobs.StorageJob.constructor` | caliban/history/job.py:127-134 | Keeps every base-job field of `d` unchanged and stores the given storage handle. `create` has no effect. |
| `StorageJobs.StorageJob.Runs` | caliban/history/job.py:136-137 | `runs()` returns exactly the records of the `runs` collection whose `job` field is this job's id. The result is empty exactly when no run refers to the job. |
| `StorageJobs.StorageJob.RunsAsWritten` | caliban/history/job.py:137 | `runs()` as written always raises `NameError` for `QueryOp`. |
| `StorageJobs.StorageJob.Experiment` | caliban/history/job.py:139-140 | `experiment()` returns a record of the `experiments` collection whose id is the job's `experiment` field. It returns None (`NotFound`) exactly when the reference dangles. |
| `StorageJobs.RunsAsWrittenLosesRuns` | caliban/history/job.py:137 | Suppose a run refers to the job. The intended query returns it, but the code as written raises instead. |

## Findings

| source | as written | input that shows it | evidently intended | confidence | as-written member | corrected member |
|---|---|---|---|---|---|---|
| caliban/history/job.py:137 | `runs()` uses `QueryOp.EQ`, but `QueryOp` is never imported into the module, so every call raises `NameError` | any `StorageJob`, for example one whose storage holds a run with `job` equal to its id | the equality query `where('job', EQ, self.id())` | high; not executed | `StorageJobs.StorageJob.RunsAsWritten` (with `StorageJobs.RunsAsWrittenLosesRuns`) | `StorageJobs.StorageJob.Runs` |

## Left out

- `uuid.uuid1()` and `datetime.now(tz=tzlocal())` are foreign and nondeterministic. They become the `ids` and `clock` parameters of `Batch.CreateDicts`. The timestamp is an opaque value, and id uniqueness across calls is a property of the generator that is not modelled.
- Generator laziness: `create_dicts` yields its records lazily and can be consumed only once. The model returns the finite sequence of all records.
- Aliasing: when `args` is truthy, every record of a batch holds the same list object. When it is falsy, `args or []` gives each record its own new `[]`. Each `kwargs` is a shallow copy. The model has value semantics, so sharing and copying are not distinguished.
- Python equality treats `1`, `1.0` and `True` as equal. The model's equality is structural, which is stronger, so the round-trip lemmas imply the Python ones. Insertion order of dictionary keys is not modelled, which matches Python's dictionary equality.
- Type errors are excluded by the parameter types rather than modelled:
  - `name` is always a string, so `name + '-...'` cannot raise `TypeError`.
  - `user` and `experiment` in `create_dicts` are strings.
  - Every entry of `configs` is a dictionary, so `.items()` cannot raise `AttributeError`.
- `Records.JobBase.constructor` and `StorageJobs.StorageJob.constructor` require every key to be present. The `KeyError` path of `JobBase(d)` is modelled by `Records.MissingKey` and `Records.NewJobBase`.
- `StorageJobs.StorageJob.Experiment` returns None where the backend's `get` raises its own `NotFound` error. The exact exception belongs to the backend, and no backend is part of this model.
- The storage backend, `insert`, and the errors that `get` and `insert` raise belong to `caliban.history.interfaces`, which is not part of this model. So are the consistency of concurrent reads and writes, and any ordering other than collection order. `Store.Storage` is an in-memory stand-in.
- `caliban.history.types` (`Platform`, `JobStatus`) and `caliban.config` are not part of this model.
- `command()` and `env()` appear in the class docstring but are not defined in job.py, so they are not modelled.
- `tests/caliban/test_docker.py` tests a Docker shell mapping in a module that is not part of this model.
