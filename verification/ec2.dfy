/**
 * The part of an EC2 `describe_instances` response that the instance listing
 * reads: reservations, each holding a list of raw instance records.
 * The response is an input of the model; the API call itself is not modelled.
 */
module Ec2 {
  import opened Wrappers

  /** A user-assigned label. boto3 delivers it as the dict `{'Key': .., 'Value': ..}`. */
  datatype Tag = Tag(key: string, value: string)

  /** `State`: the numeric code and the lifecycle name (`running`, `stopped`, ...). */
  datatype InstanceState = InstanceState(code: int, name: string)

  /** `StateReason`: why the instance is in its current state. */
  datatype StateReason = StateReason(code: string, message: string)

  datatype NetworkInterface = NetworkInterface(macAddress: string, networkInterfaceId: string)

  /** An opaque value: the listing copies it and never looks inside. */
  datatype SecurityGroup = SecurityGroup(groupName: string, groupId: string)

  /** An opaque timestamp: the listing copies it and never looks inside. */
  datatype LaunchTime = LaunchTime(stamp: string)

  /**
   * One raw instance record. Keys that the response may omit (`StateReason`
   * for running instances, `SubnetId`, `VpcId` and the IP addresses in some
   * lifecycle phases) are `Option`s.
   */
  datatype RawInstance = RawInstance(
    instanceId: string,
    instanceType: string,
    imageId: string,
    launchTime: LaunchTime,
    state: InstanceState,
    stateReason: Option<StateReason>,
    privateDnsName: string,
    publicDnsName: string,
    rootDeviceName: string,
    rootDeviceType: string,
    securityGroups: seq<SecurityGroup>,
    tags: seq<Tag>,
    subnetId: Option<string>,
    vpcId: Option<string>,
    privateIpAddress: Option<string>,
    publicIpAddress: Option<string>,
    networkInterfaces: seq<NetworkInterface>)

  datatype Reservation = Reservation(instances: seq<RawInstance>)

  /** The number of instances over all reservations. */
  function TotalInstances(rs: seq<Reservation>): nat
  {
    if rs == [] then 0 else |rs[0].instances| + TotalInstances(rs[1..])
  }

  /**
   * `[i for res in response['Reservations'] for i in res['Instances']]`:
   * the instance lists of all reservations, joined in order.
   */
  function Flatten(rs: seq<Reservation>): (r: seq<RawInstance>)
    ensures |r| == TotalInstances(rs)
  {
    if rs == [] then [] else rs[0].instances + Flatten(rs[1..])
  }

  /** Flattening distributes over concatenation: reservations are joined in order. */
  lemma {:induction false} FlattenAppend(a: seq<Reservation>, b: seq<Reservation>)
    ensures Flatten(a + b) == Flatten(a) + Flatten(b)
  {
    if a == [] {
      assert a + b == b;
    } else {
      assert (a + b)[1..] == a[1..] + b;
      FlattenAppend(a[1..], b);
    }
  }

  /** An instance is in the flattened list exactly when some reservation holds it. */
  lemma {:induction false} FlattenMembership(rs: seq<Reservation>, x: RawInstance)
    ensures x in Flatten(rs) <==> exists k :: 0 <= k < |rs| && x in rs[k].instances
  {
    if rs != [] {
      FlattenMembership(rs[1..], x);
      if x in Flatten(rs[1..]) {
        var k :| 0 <= k < |rs[1..]| && x in rs[1..][k].instances;
        assert x in rs[k + 1].instances;
      }
      if exists k :: 0 <= k < |rs| && x in rs[k].instances {
        var k :| 0 <= k < |rs| && x in rs[k].instances;
        if k > 0 {
          assert x in rs[1..][k - 1].instances;
        }
      }
    }
  }
}
