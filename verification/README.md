# kandula-cli instance listing, modelled in Dafny

`get_instances`, the command behind `kancli get-instances`, asks EC2 for
every instance (`describe_instances`) and returns the instances tagged
`kandula`, sorted by name (main.py:103). Once the response is in hand, it
runs one pass over it:

1. the instance lists of all reservations are joined in order;
2. each raw instance record becomes a fixed-schema record (`Cloud`,
   `Region`, `Id`, `Type`, `ImageId`, `LaunchTime`, `State`, `StateReason`,
   DNS names, root-device fields, `SecurityGroups`, `Tags`, `Name`,
   `SubnetId`, `VpcId`, IP addresses, `MacAddress`, `NetworkInterfaceId`);
3. records with no tag whose value is `kandula` are dropped;
4. the display name is the value of the first tag keyed `Name`, or the
   string `"None"`;
5. the state reason is filled in only for instances neither running nor
   pending (`get_state_reason`);
6. MAC address and interface id come from the first network interface, or
   are both null;
7. the list is sorted by display name with Python's stable `sorted`.

Modules, one per concern of `main.py`:

- `Wrappers` (`wrappers.dfy`): `Option`, standing for Python's `None`.
- `Ec2` (`ec2.dfy`): the response (reservations, raw records, tags,
  network interfaces, opaque launch times and security groups) and the
  flattening of reservations.
- `NameOrder` (`names.dfy`): Python's `str` ordering, proved a total order.
- `Instance` (`instance.dfy`): the output record, `GetStateReason`, the
  project test, the display name, `Project` (one record) and `Describes`,
  the field-by-field statement of what an output record must hold.
- `NameSort` (`sort.dfy`): the stable sort by display name.
- `Kandula` (`kandula.dfy`): the loop of `get_instances` as the method
  `CollectKandula`, the whole pass (join, loop, sort) as the method
  `GetInstances`, the name scan as the method `FindName`, the function
  `Normalize` that specifies the loop, and the lemmas over the whole pass.

The caller supplies the response as a sequence of reservations and the
client's region string; nothing else is read.

Points where the code says something its reader might not expect; the
model follows the code:

- The docstring (main.py:36-38) promises the instances whose tag
  `Project` equals `kandula`, but the test at main.py:77 keeps a record
  when ANY of its tags has the value `kandula`, whatever the key.
- A record with no `Name` tag gets the string `"None"` as its display
  name (main.py:85), not Python's `None`.
- Every kandula record is listed whatever its state: the command takes no
  option and the loop has no test on the state.
- `get_state_reason` runs before the project filter (main.py:69 against
  main.py:77). So every record that is neither running nor pending must
  carry a `StateReason`, including records that are dropped afterwards.
  `GetInstances` requires this of its input (`StateReasonsPresent`); the
  code raises `KeyError` otherwise.
- A tag is modelled as a key/value datatype, read by key at line 80 and by
  value at line 77. Line 80 unpacks a boto3 tag dict as a pair, which
  yields the dict's keys (see Findings); the model's `DisplayName` and
  `FindName` read the tag's real key and value.

`Normalize` is the reference for the loop: `CollectKandula` keeps the
invariant that its list equals `Normalize` of the records seen so far.
Python's library sort is modelled by a stable insertion sort, `SortByName`.
`StableSortIsUnique` proves that two lists sorted by name that agree on
the order within every class of equal names are equal. So any stable sort
by name, Python's included, returns what `SortByName` returns.

`ExampleListing` works one response through the whole pass: three
instances in the order `web3`, `web2`, `web1`, where `web2` carries
`Project=other` and `web1` carries its `kandula` value under the key `Team`.

## Model

| member | source | states |
|---|---|---|
| `Ec2.Flatten` | main.py:55 | the joined list has exactly as many records as all reservations together |
| `Ec2.FlattenAppend` | main.py:55 | joining distributes over concatenation of reservation lists: reservations are joined in order |
| `Ec2.FlattenMembership` | main.py:55 | a record is in the joined list iff some reservation holds it |
| `NameOrder.NameLeqReflexive` | main.py:102 | Python's string `<=` is reflexive |
| `NameOrder.NameLeqTotal` | main.py:102 | any two names are comparable |
| `NameOrder.NameLeqAntisymmetric` | main.py:102 | names each `<=` the other are equal |
| `NameOrder.NameLeqTransitive` | main.py:102 | the string order is transitive |
| `Instance.GetStateReason` | main.py:10-13 | the reason is present iff the state is neither `running` nor `pending`, and then it is the record's `StateReason` message |
| `Instance.TagValues` | main.py:77 | the `map` over the tags: one value per tag, in tag order |
| `Instance.IsKandula` | main.py:77 | a record passes the filter iff some tag, under any key, has the value `kandula` |
| `Instance.DisplayName` | main.py:80-85 | the name is the value of the first tag keyed `Name`; it is `"None"` when no tag has that key |
| `Instance.DisplayNameIsFirstNameTag` | main.py:80-85 | the display name is the value of a `Name` tag with no `Name` tag before it, or `"None"` when there is no `Name` tag at all |
| `Instance.FirstInterface` | main.py:93-98 | MAC address and interface id are both null iff the record has no network interface, and otherwise are those of its first interface |
| `Instance.Project` | main.py:57-98 | the projected record meets `Describes`, the field-by-field description of one raw instance; `ProjectIsDescribed` shows it is the only record that does |
| `Instance.ProjectIsDescribed` | main.py:57-98 | a record meets the field-by-field description of one raw instance (cloud `aws`, client region, copied identity, state, DNS, root-device, security-group and tag fields, present-or-absent subnet/VPC/IP fields, state reason iff not running/pending, first `Name` tag or `"None"`, first interface's MAC and id or both null iff no interface) exactly when it is the projected record |
| `NameSort.InsertSorted` | main.py:102 | inserting into a name-sorted list keeps it sorted by name |
| `NameSort.InsertPermutes` | main.py:102 | inserting adds exactly the new record: the result's multiset is the old list's plus that record |
| `NameSort.SortByName` | main.py:102 | the result is sorted ascending by name and is a permutation of the input |
| `NameSort.SortTwoOutOfOrder` | main.py:102 | two records given with the later name first come out swapped |
| `NameSort.InsertStable` | main.py:102 | an inserted record lands after every record with the same name |
| `NameSort.SortByNameStable` | main.py:102 | records with equal names keep their input order |
| `NameSort.StableSortIsUnique` | main.py:102 | two name-sorted lists with the same order within every class of equal names are equal, so every stable sort by name gives one result |
| `NameSort.SortedIsFixed` | main.py:102 | a list already sorted by name is returned unchanged |
| `NameSort.SortByNameIdempotent` | main.py:102 | sorting the sorted listing again changes nothing |
| `Kandula.KandulaInstances` | main.py:77-78 | the kept records are records of the input, each with a tag whose value is `kandula`, and no more than the input holds |
| `Kandula.Normalize` | main.py:56-100 | the loop's list is no longer than the input; `NormalizeProjectsKandula` states its contents and `KandulaInstancesCount` which records it keeps |
| `Kandula.KandulaInstancesCount` | main.py:56-78 | a record with a `kandula` tag value is kept exactly as often as it occurs in the input; any other record is never kept |
| `Kandula.NormalizeProjectsKandula` | main.py:56-100 | the loop's list has one record per kept raw record, and its `j`-th record is the projection of the `j`-th kept record |
| `Kandula.FindName` | main.py:80-85 | the early-exit scan returns the display name of the tags |
| `Kandula.CollectKandula` | main.py:54-100 | the loop, which takes the state reason of every record, skips those without a `kandula` tag value, and appends the projection of the rest, returns exactly `Normalize` of its input |
| `Kandula.GetInstances` | main.py:54-103 | the listing is sorted by name, is a permutation of the filtered and projected records, keeps the input order among equal names, is no longer than the total instance count, every listed record is described by a kandula-tagged source record, and every kandula-tagged source record's projection is listed |
| `Kandula.ListingCoversKandula` | main.py:56-102 | any permutation of the loop's list is no longer than the input, lists only records described by kandula-tagged inputs, and lists the projection of every kandula-tagged input |
| `Kandula.OutputHasSource` | main.py:56-100 | every record of the loop's list is described by a kandula-tagged input record |
| `Kandula.SourceHasOutput` | main.py:56-100 | every kandula-tagged input record's projection is in the loop's list |
| `Kandula.ExampleFiltered` | main.py:56-100 | of `web3` (`Project=kandula`, stopped), `web2` (`Project=other`) and `web1` (`Team=kandula`), the loop keeps `web3` and `web1` in input order |
| `Kandula.ExampleListing` | main.py:54-103 | the sorted listing of that response is `web1`, `web3`, with the stopped instance's reason filled in and the running one's absent |
| `Kandula.DisplayNameAsWritten` | main.py:80-85 | as written, the name is `"None"` or the second unpacked component of some tag; `DisplayNameAsWrittenIgnoresTags` shows it is always `"None"` |
| `Kandula.DisplayNameAsWrittenIgnoresTags` | main.py:80-85 | as written over boto3 tag dicts, the name scan returns `"None"` for every tag list |
| `Kandula.NameTagIgnoredAsWritten` | main.py:80-85 | tags `Name=web1, Project=kandula` give `"None"` as written and `"web1"` as intended |

## Left out

- The boto3 client, the `describe_instances` call and the client's region lookup (main.py:5, 30, 47, 61): foreign network calls. The response and the region are inputs.
- The `try`/`except` around the call and the HTTP status check (main.py:46-52): they only log, and a failure leaves nothing to model.
- The click group, options, context and `debug` flag (main.py:15-35, 124-125): command-line wiring.
- `start_instances`, `stop_instances`, `terminate_instances` (main.py:106-121): they are stubs. Their `def` lines have no body at all, so as written the module does not parse and no command runs.
- Reading the client and the debug flag at main.py:43-44 indexes the click `Context` itself (`ctx["client"]`) rather than `ctx.obj`, which `Context` does not support; the model starts from the response and region that line 43 meant to reach.
- A record without a `Tags` key: the API omits it for untagged instances and the code then raises `KeyError` at line 75. The model gives every record a tag list.
- Missing required keys (`InstanceId`, `State`, `NetworkInterfaces` and the others read with `[]`) are not modelled: every raw record carries them.
- `LaunchTime` and `SecurityGroups` are opaque values that are only copied; their timestamp and group semantics are not modelled.
- Python's sort algorithm (timsort) is not modelled step by step; `StableSortIsUnique` shows its result equals the model's.
- Names compare by code point, as in Python; lone surrogate code points, which a Python string may hold but a Dafny character cannot, are not modelled.

## Findings

| source | as written | input that shows it | evidently intended | confidence | as-written member | corrected member |
|---|---|---|---|---|---|---|
| main.py:80 | `for k, v in i["Tags"]` unpacks each boto3 tag dict `{'Key': .., 'Value': ..}` into its two keys, so `k` is `"Key"` and never `"Name"` | an instance tagged `Name=web1, Project=kandula` is listed with name `"None"` | the name is the value of the first tag keyed `Name` (`for t in i["Tags"]: if t["Key"] == "Name": ... t["Value"]`) | high; not executed | `Kandula.DisplayNameAsWrittenIgnoresTags` | `Instance.DisplayName` |
