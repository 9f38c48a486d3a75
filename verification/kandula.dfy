/**
 * The listing pass of the `get-instances` command: flatten the reservations,
 * project every instance record, keep those tagged with the value `kandula`,
 * and sort the result by display name.
 */
module Kandula {
  import opened Wrappers
  import opened Ec2
  import opened Instance
  import opened NameOrder
  import opened NameSort

  /**
   * What the pass demands of the response: `get_state_reason` runs on every
   * record before the project filter, so every record that is neither
   * running nor pending carries a `StateReason`, discarded ones included.
   */
  predicate StateReasonsPresent(data: seq<RawInstance>)
  {
    forall k :: 0 <= k < |data| ==> HasStateReason(data[k])
  }

  /** The records that pass the project filter, in input order. */
  function KandulaInstances(data: seq<RawInstance>): (r: seq<RawInstance>)
    ensures |r| <= |data|
    ensures forall k :: 0 <= k < |r| ==> r[k] in data && IsKandula(r[k].tags)
  {
    if data == [] then []
    else
      var init, last := data[..|data| - 1], data[|data| - 1];
      assert forall x :: x in init ==> x in data;
      KandulaInstances(init) + (if IsKandula(last.tags) then [last] else [])
  }

  /**
   * The list `get_instances` holds after its loop, before sorting: one
   * projected record for each record that passes the project filter.
   */
  function Normalize(data: seq<RawInstance>, region: string): (r: seq<NormalizedInstance>)
    requires StateReasonsPresent(data)
    ensures |r| <= |data|
  {
    if data == [] then []
    else
      var init, last := data[..|data| - 1], data[|data| - 1];
      var prev := Normalize(init, region);
      if IsKandula(last.tags) then prev + [Project(last, region)] else prev
  }

  /** Each record passing the filter is kept exactly as often as it occurs; no other record is. */
  lemma {:induction false} KandulaInstancesCount(data: seq<RawInstance>, x: RawInstance)
    ensures multiset(KandulaInstances(data))[x] == if IsKandula(x.tags) then multiset(data)[x] else 0
  {
    if data != [] {
      var init, last := data[..|data| - 1], data[|data| - 1];
      assert data == init + [last];
      KandulaInstancesCount(init, x);
    }
  }

  /**
   * The loop's list is the projection of the filtered records, position by
   * position: the `j`-th output record comes from the `j`-th kandula record.
   */
  lemma {:induction false} NormalizeProjectsKandula(data: seq<RawInstance>, region: string)
    requires StateReasonsPresent(data)
    ensures |Normalize(data, region)| == |KandulaInstances(data)|
    ensures forall j :: 0 <= j < |KandulaInstances(data)| ==>
              HasStateReason(KandulaInstances(data)[j]) &&
              Normalize(data, region)[j] == Project(KandulaInstances(data)[j], region)
  {
    if data != [] {
      var init := data[..|data| - 1];
      assert StateReasonsPresent(init) by {
        forall k | 0 <= k < |init| ensures HasStateReason(init[k]) {
          assert init[k] == data[k];
        }
      }
      NormalizeProjectsKandula(init, region);
    }
  }

  /**
   * The `for ... else` scan of lines 80-85 for the display name, with its
   * early exit. The source unpacks each tag as a `(k, v)` pair; a boto3 tag
   * is a dict, which unpacks into its two keys instead (see
   * `DisplayNameAsWritten`). The scan here reads the tag's key and value.
   */
  method FindName(tags: seq<Tag>) returns (name: string)
    ensures name == DisplayName(tags)
  {
    var idx := 0;
    while idx < |tags|
      invariant 0 <= idx <= |tags|
      invariant DisplayName(tags[idx..]) == DisplayName(tags)
    {
      if tags[idx].key == NAME_KEY {
        name := tags[idx].value;
        return;
      }
      assert tags[idx..][1..] == tags[idx + 1..];
      idx := idx + 1;
    }
    name := DEFAULT_NAME;
  }

  /**
   * The loop of lines 56-100: each record is projected field by field and
   * appended unless it fails the project filter. The state reason is taken
   * before the filter, as in the source.
   */
  method CollectKandula(data: seq<RawInstance>, region: string) returns (instances: seq<NormalizedInstance>)
    requires StateReasonsPresent(data)
    ensures instances == Normalize(data, region)
  {
    instances := [];
    for idx := 0 to |data|
      invariant instances == Normalize(data[..idx], region)
    {
      var i := data[idx];
      assert data[..idx + 1][..idx] == data[..idx] && data[..idx + 1][idx] == i;
      var stateReason := GetStateReason(i);
      if !IsKandula(i.tags) {
        continue;
      }
      var name := FindName(i.tags);
      var nic := FirstInterface(i.networkInterfaces);
      var newInstance := NormalizedInstance(
        CLOUD, region, i.instanceId, i.instanceType, i.imageId, i.launchTime,
        i.state.name, stateReason,
        i.privateDnsName, i.publicDnsName, i.rootDeviceName, i.rootDeviceType,
        i.securityGroups, i.tags, name,
        i.subnetId, i.vpcId, i.privateIpAddress, i.publicIpAddress,
        nic.0, nic.1);
      assert newInstance == Project(i, region);
      instances := instances + [newInstance];
    }
    assert data[..|data|] == data;
  }

  /**
   * The body of `get_instances` once the response is in hand: the records
   * are flattened, projected and filtered in a loop, then sorted by name.
   */
  method GetInstances(reservations: seq<Reservation>, region: string) returns (instances: seq<NormalizedInstance>)
    requires StateReasonsPresent(Flatten(reservations))
    ensures IsSortedByName(instances)
    ensures multiset(instances) == multiset(Normalize(Flatten(reservations), region))
    ensures SameNameClasses(instances, Normalize(Flatten(reservations), region))
    ensures |instances| <= TotalInstances(reservations)
    ensures forall r :: r in instances ==>
              exists i :: i in Flatten(reservations) && IsKandula(i.tags) && Describes(r, i, region)
    ensures forall i :: i in Flatten(reservations) && IsKandula(i.tags) ==>
              HasStateReason(i) && Project(i, region) in instances
  {
    var data := Flatten(reservations);
    var collected := CollectKandula(data, region);
    instances := SortByName(collected);
    SortByNameStable(collected);
    ListingCoversKandula(data, region, collected, instances);
  }

  /** The sorted listing holds a described record for each kandula record, and nothing else. */
  lemma ListingCoversKandula(data: seq<RawInstance>, region: string,
                             unsorted: seq<NormalizedInstance>, out: seq<NormalizedInstance>)
    requires StateReasonsPresent(data)
    requires unsorted == Normalize(data, region)
    requires multiset(out) == multiset(unsorted)
    ensures |out| <= |data|
    ensures forall r :: r in out ==>
              exists i :: i in data && IsKandula(i.tags) && Describes(r, i, region)
    ensures forall i :: i in data && IsKandula(i.tags) ==>
              HasStateReason(i) && Project(i, region) in out
  {
    NormalizeProjectsKandula(data, region);
    assert |out| == |multiset(out)| == |unsorted|;
    forall r | r in out
      ensures exists i :: i in data && IsKandula(i.tags) && Describes(r, i, region)
    {
      assert r in multiset(unsorted);
      OutputHasSource(data, region, r);
    }
    forall i | i in data && IsKandula(i.tags)
      ensures HasStateReason(i) && Project(i, region) in out
    {
      SourceHasOutput(data, region, i);
      assert Project(i, region) in multiset(unsorted);
    }
  }

  /** Every record of the loop's list is described by some kandula record. */
  lemma OutputHasSource(data: seq<RawInstance>, region: string, r: NormalizedInstance)
    requires StateReasonsPresent(data)
    requires r in Normalize(data, region)
    ensures exists i :: i in data && IsKandula(i.tags) && Describes(r, i, region)
  {
    var kept := KandulaInstances(data);
    NormalizeProjectsKandula(data, region);
    var j :| 0 <= j < |Normalize(data, region)| && Normalize(data, region)[j] == r;
    ProjectIsDescribed(kept[j], region, r);
  }

  /** Every kandula record has its projection in the loop's list. */
  lemma SourceHasOutput(data: seq<RawInstance>, region: string, i: RawInstance)
    requires StateReasonsPresent(data)
    requires i in data && IsKandula(i.tags)
    ensures HasStateReason(i) && Project(i, region) in Normalize(data, region)
  {
    var kept := KandulaInstances(data);
    NormalizeProjectsKandula(data, region);
    KandulaInstancesCount(data, i);
    assert i in multiset(kept);
    var j :| 0 <= j < |kept| && kept[j] == i;
    assert Normalize(data, region)[j] == Project(i, region);
  }

  const RUNNING := InstanceState(16, "running")
  const STOPPED := InstanceState(80, "stopped")
  const SHUTDOWN_REASON := StateReason("Client.UserInitiatedShutdown", "User initiated shutdown")

  /** A raw record with a `Name` tag followed by one other tag, for the worked example below. */
  function ExampleInstance(name: string, other: Tag, state: InstanceState, reason: Option<StateReason>): RawInstance
  {
    RawInstance("i-" + name, "t2.micro", "ami-1", LaunchTime("2020-01-01T00:00:00Z"), state, reason,
                "", "", "/dev/xvda", "ebs", [], [Tag("Name", name), other],
                None, None, None, None, [])
  }

  /** A response of three records, in this order: web3, web2, web1. */
  function ExampleData(): seq<RawInstance>
  {
    [ExampleInstance("web3", Tag("Project", "kandula"), STOPPED, Some(SHUTDOWN_REASON)),
     ExampleInstance("web2", Tag("Project", "other"), RUNNING, None),
     ExampleInstance("web1", Tag("Team", "kandula"), RUNNING, None)]
  }

  /**
   * The filter keeps web3 and web1 in input order: web2 is tagged
   * `Project=other`, while web1 is kept although its `kandula` value sits
   * under the key `Team`.
   */
  lemma ExampleFiltered()
    ensures StateReasonsPresent(ExampleData())
    ensures var data := ExampleData();
            Normalize(data, "us-east-1") == [Project(data[0], "us-east-1"), Project(data[2], "us-east-1")]
  {
    var data := ExampleData();
    var w3, w2, w1 := data[0], data[1], data[2];
    ExampleTags();
    var p3, p1 := Project(w3, "us-east-1"), Project(w1, "us-east-1");
    assert Normalize([w3], "us-east-1") == [p3] by {
      assert [w3][..0] == [];
    }
    assert Normalize([w3, w2], "us-east-1") == [p3] by {
      assert [w3, w2][..1] == [w3];
    }
    assert Normalize(data, "us-east-1") == [p3, p1] by {
      assert data[..2] == [w3, w2];
    }
  }

  /** Which of the three records carry the value `kandula`. */
  lemma ExampleTags()
    ensures var data := ExampleData();
            StateReasonsPresent(data) && IsKandula(data[0].tags) && !IsKandula(data[1].tags) && IsKandula(data[2].tags)
  {
    var data := ExampleData();
    assert data[0].tags[1].value == "kandula";
    assert data[2].tags[1].value == "kandula";
  }

  /** web1 < web3 under Python's string order. */
  lemma ExampleNamesOrdered()
    ensures NameLess("web1", "web3")
  {
    assert "web1"[1..] == "eb1" && "eb1"[1..] == "b1" && "b1"[1..] == "1";
    assert "web3"[1..] == "eb3" && "eb3"[1..] == "b3" && "b3"[1..] == "3";
  }

  /** The names and state reasons of the two kept records. */
  lemma ExampleProjected()
    ensures var data := ExampleData();
            HasStateReason(data[0]) && HasStateReason(data[2]) &&
            var p3, p1 := Project(data[0], "us-east-1"), Project(data[2], "us-east-1");
            p3.name == "web3" && p1.name == "web1" &&
            p3.stateReason == Some("User initiated shutdown") && p1.stateReason == None
  {
    var data := ExampleData();
    assert data[0].tags[0].key == "Name" && data[2].tags[0].key == "Name";
  }

  /**
   * The listing of the example response: web1 before web3, with the stopped
   * instance's reason filled in and the running one's left empty.
   */
  lemma ExampleListing()
    ensures StateReasonsPresent(ExampleData())
    ensures var out := SortByName(Normalize(ExampleData(), "us-east-1"));
            |out| == 2 && out[0].name == "web1" && out[1].name == "web3"
            && out[0].stateReason == None && out[1].stateReason == Some("User initiated shutdown")
  {
    ExampleFiltered();
    ExampleProjected();
    ExampleNamesOrdered();
    var data := ExampleData();
    SortTwoOutOfOrder(Project(data[0], "us-east-1"), Project(data[2], "us-east-1"));
  }

  // The display-name scan as the source writes it (lines 80-85).

  /**
   * What `for k, v in i["Tags"]` binds for one tag: boto3 delivers a tag as
   * the dict `{'Key': .., 'Value': ..}`, and unpacking a dict yields its
   * keys, so `k` is the string "Key" and `v` the string "Value".
   */
  function UnpackTagAsWritten(t: Tag): (string, string)
  {
    ("Key", "Value")
  }

  /** Lines 80-85 as written, over boto3 tag dicts. */
  function DisplayNameAsWritten(tags: seq<Tag>): (r: string)
    ensures r == DEFAULT_NAME || exists k :: 0 <= k < |tags| && r == UnpackTagAsWritten(tags[k]).1
  {
    if tags == [] then DEFAULT_NAME
    else
      var (k, v) := UnpackTagAsWritten(tags[0]);
      if k == NAME_KEY then v else DisplayNameAsWritten(tags[1..])
  }

  /** As written, the scan never matches, so every instance is named "None". */
  lemma {:induction false} DisplayNameAsWrittenIgnoresTags(tags: seq<Tag>)
    ensures DisplayNameAsWritten(tags) == DEFAULT_NAME
  {
    if tags != [] {
      DisplayNameAsWrittenIgnoresTags(tags[1..]);
    }
  }

  /** An instance tagged `Name=web1` is listed as "None" by the code as written, as "web1" by the intended scan. */
  lemma NameTagIgnoredAsWritten()
    ensures DisplayNameAsWritten([Tag("Name", "web1"), Tag("Project", "kandula")]) == "None"
    ensures DisplayName([Tag("Name", "web1"), Tag("Project", "kandula")]) == "web1"
  {
    DisplayNameAsWrittenIgnoresTags([Tag("Name", "web1"), Tag("Project", "kandula")]);
  }
}
