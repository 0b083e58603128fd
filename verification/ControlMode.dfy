/** Who owns the arms: the policy, a hold during the handover, or the human. */
module ControlMode {
  datatype ModeState = Autonomous | HandoverSync | Human

  datatype LogicState = LogicState(mode: ModeState, requested: bool) {
    /** An operator request is pending only inside a handover. */
    predicate Valid() {
      requested ==> mode == HandoverSync
    }

    predicate CanTakeover() {
      mode == Autonomous
    }

    predicate CanEnterTeleop() {
      mode == HandoverSync && !requested
    }

    predicate CanComplete() {
      mode == HandoverSync && requested
    }

    predicate CanReturn() {
      mode != Autonomous
    }
  }

  class ControlArbiterLogic {
    var mode: ModeState
    var teleopRequested: bool

    ghost function State(): LogicState
      reads this
    {
      LogicState(mode, teleopRequested)
    }

    constructor ()
      ensures State() == LogicState(Autonomous, false)
    {
      mode, teleopRequested := Autonomous, false;
    }

    method RequestTakeover() returns (ok: bool)
      modifies this
      ensures ok == old(State()).CanTakeover()
      ensures State() == if ok then LogicState(HandoverSync, false) else old(State())
    {
      if mode != Autonomous {
        return false;
      }
      mode := HandoverSync;
      teleopRequested := false;
      return true;
    }

    method RequestEnterTeleop() returns (ok: bool)
      modifies this
      ensures ok == old(State()).CanEnterTeleop()
      ensures State() == if ok then LogicState(HandoverSync, true) else old(State())
    {
      if mode != HandoverSync {
        return false;
      }
      if teleopRequested {
        return false;
      }
      teleopRequested := true;
      return true;
    }

    method SyncCompleted() returns (ok: bool)
      modifies this
      ensures ok == old(State()).CanComplete()
      ensures State() == if ok then LogicState(Human, false) else old(State())
    {
      if mode != HandoverSync {
        return false;
      }
      if !teleopRequested {
        return false;
      }
      mode := Human;
      teleopRequested := false;
      return true;
    }

    method RequestReturn() returns (ok: bool)
      modifies this
      ensures ok == old(State()).CanReturn()
      ensures State() == if ok then LogicState(Autonomous, false) else old(State())
    {
      if mode != Human && mode != HandoverSync {
        return false;
      }
      mode := Autonomous;
      teleopRequested := false;
      return true;
    }
  }
}
