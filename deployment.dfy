/** `deploy_vm_agent`: the chain of REST calls that turns a collected VM
    specification into a running VM. Each call is recorded in a trace; the
    server's answer to each call is given by an oracle function, so any
    pattern of successes and failures can be examined. */
module Deployment {
  import opened Text
  import opened External

  /** Fixed CPU topology sent with every CPU patch. */
  const CoresPerSocket: nat := 2

  /** RAM is collected in GB and sent in MiB. */
  const MiBPerGB: nat := 1024

  /** The requests of the five REST helpers, with the arguments that reach
      the server (the session token travels in a header). */
  datatype Call =
    | Authenticate
    | Clone(vmName: string, token: string)
    | PatchCpu(vmId: string, count: nat, coresPerSocket: nat, token: string)
    | PatchMemory(vmId: string, sizeMiB: nat, token: string)
    | PowerOn(vmId: string, token: string)

  /** Where each kind of call belongs in the deployment sequence. */
  function Stage(c: Call): nat
  {
    match c
    case Authenticate => 0
    case Clone(_, _) => 1
    case PatchCpu(_, _, _, _) => 2
    case PatchMemory(_, _, _) => 3
    case PowerOn(_, _) => 4
  }

  /** The `(success, message)` pair of `deploy_vm_agent` with the calls it made. */
  datatype Attempt = Attempt(success: bool, message: string, calls: seq<Call>)

  function SuccessMessage(vmName: string, cpu: nat, ramGb: nat): string
  {
    "VM '" + vmName + "' has been deployed successfully with " + NatToString(cpu)
      + " CPU cores and " + NatToString(ramGb) + " GB RAM!"
  }

  function FailureMessage(reason: string): string
  {
    "Deployment failed: " + reason
  }

  /** The deployment attempt for `vmName`, `cpu` and `ramGb` against a
      server that answers each call as `vcenter` says. */
  function Deploy(vmName: string, cpu: nat, ramGb: nat, vcenter: Call -> Reply): (a: Attempt)
    // the calls come strictly in the order token, clone, CPU, memory, power on
    ensures 1 <= |a.calls| <= 5
    ensures forall i :: 0 <= i < |a.calls| ==> Stage(a.calls[i]) == i
    // a call is only issued after every earlier call succeeded
    ensures forall i :: 0 <= i < |a.calls| - 1 ==> vcenter(a.calls[i]).Ok?
    // success means all five calls went through
    ensures a.success <==> |a.calls| == 5 && vcenter(a.calls[4]).Ok?
    ensures a.success ==> a.message == SuccessMessage(vmName, cpu, ramGb)
    // otherwise the last call issued is the one that failed, and its error is reported
    ensures !a.success ==> vcenter(a.calls[|a.calls| - 1]).Fail?
    ensures !a.success ==> a.message == FailureMessage(vcenter(a.calls[|a.calls| - 1]).reason)
    // the arguments: one token for all calls, and the clone's identifier for the last three
    ensures a.calls[0] == Authenticate
    ensures |a.calls| > 1 ==> a.calls[1] == Clone(vmName, vcenter(Authenticate).value)
    ensures |a.calls| > 2 ==>
      a.calls[2] == PatchCpu(vcenter(a.calls[1]).value, cpu, CoresPerSocket, vcenter(Authenticate).value)
    ensures |a.calls| > 3 ==>
      a.calls[3] == PatchMemory(vcenter(a.calls[1]).value, ramGb * MiBPerGB, vcenter(Authenticate).value)
    ensures |a.calls| > 4 ==>
      a.calls[4] == PowerOn(vcenter(a.calls[1]).value, vcenter(Authenticate).value)
  {
    match vcenter(Authenticate)
    case Fail(e) => Attempt(false, FailureMessage(e), [Authenticate])
    case Ok(token) =>
      var clone := Clone(vmName, token);
      match vcenter(clone)
      case Fail(e) => Attempt(false, FailureMessage(e), [Authenticate, clone])
      case Ok(vmId) =>
        var patchCpu := PatchCpu(vmId, cpu, CoresPerSocket, token);
        match vcenter(patchCpu)
        case Fail(e) => Attempt(false, FailureMessage(e), [Authenticate, clone, patchCpu])
        case Ok(_) =>
          var patchMemory := PatchMemory(vmId, ramGb * MiBPerGB, token);
          match vcenter(patchMemory)
          case Fail(e) => Attempt(false, FailureMessage(e), [Authenticate, clone, patchCpu, patchMemory])
          case Ok(_) =>
            var powerOn := PowerOn(vmId, token);
            var calls := [Authenticate, clone, patchCpu, patchMemory, powerOn];
            match vcenter(powerOn)
            case Fail(e) => Attempt(false, FailureMessage(e), calls)
            case Ok(_) => Attempt(true, SuccessMessage(vmName, cpu, ramGb), calls)
  }

  /** `deploy_vm_agent` as the try-chain it is: issue each call, stop at the
      first one that raises. The sleeps between calls are left out. */
  method DeployVmAgent(vmName: string, cpu: nat, ramGb: nat, vcenter: Call -> Reply)
    returns (success: bool, message: string, calls: seq<Call>)
    ensures Attempt(success, message, calls) == Deploy(vmName, cpu, ramGb, vcenter)
  {
    calls := [Authenticate];
    var reply := vcenter(Authenticate);
    if reply.Fail? {
      return false, FailureMessage(reply.reason), calls;
    }
    var token := reply.value;

    var clone := Clone(vmName, token);
    calls := calls + [clone];
    reply := vcenter(clone);
    if reply.Fail? {
      return false, FailureMessage(reply.reason), calls;
    }
    var vmId := reply.value;

    var patchCpu := PatchCpu(vmId, cpu, CoresPerSocket, token);
    calls := calls + [patchCpu];
    reply := vcenter(patchCpu);
    if reply.Fail? {
      return false, FailureMessage(reply.reason), calls;
    }

    var patchMemory := PatchMemory(vmId, ramGb * MiBPerGB, token);
    calls := calls + [patchMemory];
    reply := vcenter(patchMemory);
    if reply.Fail? {
      return false, FailureMessage(reply.reason), calls;
    }

    var powerOn := PowerOn(vmId, token);
    calls := calls + [powerOn];
    reply := vcenter(powerOn);
    if reply.Fail? {
      return false, FailureMessage(reply.reason), calls;
    }
    return true, SuccessMessage(vmName, cpu, ramGb), calls;
  }

  /** A failure at step `k` (0 = token, ..., 4 = power on) leaves every later
      step unissued: the trace is exactly the first `k + 1` planned calls. */
  lemma FailureStopsTheChain(vmName: string, cpu: nat, ramGb: nat, vcenter: Call -> Reply, k: nat)
    requires k < |Deploy(vmName, cpu, ramGb, vcenter).calls|
    requires vcenter(Deploy(vmName, cpu, ramGb, vcenter).calls[k]).Fail?
    ensures |Deploy(vmName, cpu, ramGb, vcenter).calls| == k + 1
    ensures !Deploy(vmName, cpu, ramGb, vcenter).success
  {
  }

  /** The message alone tells success from failure, so the summary prompt,
      which sees only the message, can report the outcome. */
  lemma OutcomeReadableFromMessage(vmName: string, cpu: nat, ramGb: nat, vcenter: Call -> Reply)
    ensures var a := Deploy(vmName, cpu, ramGb, vcenter);
      a.success <==> a.message[0] == 'V'
  {
    var a := Deploy(vmName, cpu, ramGb, vcenter);
    if a.success {
      assert a.message[0] == SuccessMessage(vmName, cpu, ramGb)[0];
    } else {
      assert a.message[0] == FailureMessage(vcenter(a.calls[|a.calls| - 1]).reason)[0];
    }
  }
}
