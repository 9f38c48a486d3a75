/**
 * One instance of the listing: the fixed-schema record that `get_instances`
 * builds from a raw instance record, and the per-record rules it applies.
 */
module Instance {
  import opened Wrappers
  import opened Ec2

  const CLOUD: string := "aws"
  /** The tag value that marks an instance as part of the Kandula application. */
  const PROJECT_VALUE: string := "kandula"
  const NAME_KEY: string := "Name"
  /** The display name of an instance without a `Name` tag: the string "None", not a null. */
  const DEFAULT_NAME: string := "None"

  /** The output record; Python's `None` values are `Option.None`. */
  datatype NormalizedInstance = NormalizedInstance(
    cloud: string,
    region: string,
    id: string,
    instanceType: string,
    imageId: string,
    launchTime: LaunchTime,
    state: string,
    stateReason: Option<string>,
    privateDnsName: string,
    publicDnsName: string,
    rootDeviceName: string,
    rootDeviceType: string,
    securityGroups: seq<SecurityGroup>,
    tags: seq<Tag>,
    name: string,
    subnetId: Option<string>,
    vpcId: Option<string>,
    privateIpAddress: Option<string>,
    publicIpAddress: Option<string>,
    macAddress: Option<string>,
    networkInterfaceId: Option<string>)

  /** True when the lifecycle state is `running` or `pending`. */
  predicate IsActive(state: string)
  {
    state == "running" || state == "pending"
  }

  /**
   * What `get_state_reason` needs of a record: an instance that is neither
   * running nor pending carries a `StateReason` (otherwise the lookup raises).
   */
  predicate HasStateReason(i: RawInstance)
  {
    !IsActive(i.state.name) ==> i.stateReason.Some?
  }

  /** `get_state_reason`: the reason message, only for instances neither running nor pending. */
  function GetStateReason(i: RawInstance): (r: Option<string>)
    requires HasStateReason(i)
    ensures r.Some? <==> i.state.name != "running" && i.state.name != "pending"
    ensures r.Some? ==> r.value == i.stateReason.value.message
  {
    if IsActive(i.state.name) then None else Some(i.stateReason.value.message)
  }

  /** `map(lambda x: x['Value'], i['Tags'])`: the tag values, in tag order. */
  function TagValues(tags: seq<Tag>): (r: seq<string>)
    ensures |r| == |tags|
    ensures forall k :: 0 <= k < |tags| ==> r[k] == tags[k].value
  {
    if tags == [] then [] else [tags[0].value] + TagValues(tags[1..])
  }

  /** `'kandula' in map(lambda x: x['Value'], i['Tags'])`: some tag has the value `kandula`, whatever its key. */
  predicate IsKandula(tags: seq<Tag>)
    ensures IsKandula(tags) <==> exists k :: 0 <= k < |tags| && tags[k].value == PROJECT_VALUE
  {
    PROJECT_VALUE in TagValues(tags)
  }

  /** No tag before position `k` is keyed `Name`. */
  predicate NoNameTagBefore(tags: seq<Tag>, k: int)
    requires 0 <= k <= |tags|
  {
    forall j :: 0 <= j < k ==> tags[j].key != NAME_KEY
  }

  /**
   * The display name: the value of the first tag keyed `Name`, or
   * `DEFAULT_NAME` when no tag has that key.
   */
  function DisplayName(tags: seq<Tag>): (name: string)
    ensures NoNameTagBefore(tags, |tags|) ==> name == DEFAULT_NAME
    ensures forall k :: 0 <= k < |tags| && tags[k].key == NAME_KEY && NoNameTagBefore(tags, k) ==>
              name == tags[k].value
  {
    if tags == [] then DEFAULT_NAME
    else if tags[0].key == NAME_KEY then tags[0].value
    else
      var rest := DisplayName(tags[1..]);
      assert forall k :: 1 <= k <= |tags| && NoNameTagBefore(tags, k) ==> NoNameTagBefore(tags[1..], k - 1);
      rest
  }

  /** The MAC address and interface id of the first network interface, or both absent. */
  function FirstInterface(nics: seq<NetworkInterface>): (r: (Option<string>, Option<string>))
    ensures r.0.None? <==> |nics| == 0
    ensures r.1.None? <==> |nics| == 0
    ensures |nics| > 0 ==> r.0.value == nics[0].macAddress && r.1.value == nics[0].networkInterfaceId
  {
    if |nics| > 0 then (Some(nics[0].macAddress), Some(nics[0].networkInterfaceId))
    else (None, None)
  }

  /** The record `get_instances` appends for a raw instance that passed the project filter. */
  function Project(i: RawInstance, region: string): (r: NormalizedInstance)
    requires HasStateReason(i)
    ensures Describes(r, i, region)
  {
    DisplayNameIsFirstNameTag(i.tags);
    var nic := FirstInterface(i.networkInterfaces);
    NormalizedInstance(
      CLOUD, region, i.instanceId, i.instanceType, i.imageId, i.launchTime,
      i.state.name, GetStateReason(i),
      i.privateDnsName, i.publicDnsName, i.rootDeviceName, i.rootDeviceType,
      i.securityGroups, i.tags, DisplayName(i.tags),
      i.subnetId, i.vpcId, i.privateIpAddress, i.publicIpAddress,
      nic.0, nic.1)
  }

  /** `name` is the value of the first tag keyed `Name`, or "None" when no tag has that key. */
  predicate IsFirstNameOrDefault(tags: seq<Tag>, name: string)
  {
    || (exists k :: 0 <= k < |tags| && tags[k].key == "Name" && NoNameTagBefore(tags, k) && name == tags[k].value)
    || (NoNameTagBefore(tags, |tags|) && name == "None")
  }

  /**
   * The listing's promise about one output record `r` built from raw record
   * `i`, field by field, written independently of `Project`.
   */
  predicate Describes(r: NormalizedInstance, i: RawInstance, region: string)
  {
    // Constant and client-supplied fields.
    && r.cloud == "aws"
    && r.region == region
    // Fields copied unchanged.
    && r.id == i.instanceId
    && r.instanceType == i.instanceType
    && r.imageId == i.imageId
    && r.launchTime == i.launchTime
    && r.state == i.state.name
    && r.privateDnsName == i.privateDnsName
    && r.publicDnsName == i.publicDnsName
    && r.rootDeviceName == i.rootDeviceName
    && r.rootDeviceType == i.rootDeviceType
    && r.securityGroups == i.securityGroups
    && r.tags == i.tags
    // Fields copied as present-or-absent.
    && r.subnetId == i.subnetId
    && r.vpcId == i.vpcId
    && r.privateIpAddress == i.privateIpAddress
    && r.publicIpAddress == i.publicIpAddress
    // The state reason: present, with the reason message, iff neither running nor pending.
    && (r.stateReason.Some? <==> r.state != "running" && r.state != "pending")
    && (r.stateReason.Some? ==> i.stateReason.Some? && r.stateReason.value == i.stateReason.value.message)
    // The name: the first `Name` tag's value, or "None" when there is no `Name` tag.
    && IsFirstNameOrDefault(i.tags, r.name)
    // The first network interface, or both fields null when there is none.
    && (r.macAddress.None? <==> |i.networkInterfaces| == 0)
    && (r.networkInterfaceId.None? <==> |i.networkInterfaces| == 0)
    && (|i.networkInterfaces| > 0 ==>
          && r.macAddress.value == i.networkInterfaces[0].macAddress
          && r.networkInterfaceId.value == i.networkInterfaces[0].networkInterfaceId)
  }

  /** `Project` builds a record meeting `Describes`, and it is the only such record. */
  lemma ProjectIsDescribed(i: RawInstance, region: string, r: NormalizedInstance)
    requires HasStateReason(i)
    ensures Describes(r, i, region) <==> r == Project(i, region)
  {
    if Describes(r, i, region) && NoNameTagBefore(i.tags, |i.tags|) {
      assert r.name == DisplayName(i.tags);
    } else if Describes(r, i, region) {
      var k :| 0 <= k < |i.tags| && i.tags[k].key == "Name" && NoNameTagBefore(i.tags, k) && r.name == i.tags[k].value;
      assert r.name == DisplayName(i.tags);
    }
  }

  /** `DisplayName` meets the declarative description of the name. */
  lemma DisplayNameIsFirstNameTag(tags: seq<Tag>)
    ensures IsFirstNameOrDefault(tags, DisplayName(tags))
  {
    if !NoNameTagBefore(tags, |tags|) {
      var k :| 0 <= k < |tags| && tags[k].key == NAME_KEY;
      FirstNameTag(tags, k);
    }
  }

  /** When some tag is keyed `Name`, there is a first one. */
  lemma {:induction false} FirstNameTag(tags: seq<Tag>, k: int)
    requires 0 <= k < |tags| && tags[k].key == NAME_KEY
    ensures exists f :: 0 <= f <= k && tags[f].key == NAME_KEY && NoNameTagBefore(tags, f)
  {
    if !NoNameTagBefore(tags, k) {
      var j :| 0 <= j < k && tags[j].key == NAME_KEY;
      FirstNameTag(tags, j);
    }
  }
}
