/** The per-system records of the multi-system engine: the force records,
    the system holder, the state of one system and the data the engine keeps
    for it, with the move operations that hand that data from one holder to
    another. */
module Systems {
  import opened Common

  /** An opaque reference to an object this model does not describe (a
      robot, a controller, a lock guard). */
  datatype Handle = Handle(id: nat)

  /** `forceProfileFunctor_t`: the force applied at time t in state (q, v). */
  type ForceProfileFunctor = (real, seq<real>, seq<real>) -> SpatialForce

  /** `forceCouplingFunctor_t`: the force between two systems given both states. */
  type ForceCouplingFunctor = (real, seq<real>, seq<real>, seq<real>, seq<real>) -> SpatialForce

  /** `callbackFunctor_t`: whether the simulation should go on. */
  type CallbackFunctor = (real, seq<real>, seq<real>) -> bool

  /** `forceProfile_t`. */
  class ForceProfile {
    const frameName: string
    const frameIdx: int
    const forceFct: ForceProfileFunctor

    constructor (frameNameIn: string, frameIdxIn: int, forceFctIn: ForceProfileFunctor)
      ensures frameName == frameNameIn && frameIdx == frameIdxIn && forceFct == forceFctIn
    {
      frameName, frameIdx, forceFct := frameNameIn, frameIdxIn, forceFctIn;
    }
  }

  /** `forceImpulse_t`: a force `F` applied on `frameName` from `t` for `dt`. */
  class ForceImpulse {
    const frameName: string
    const frameIdx: int
    const t: real
    const dt: real
    const F: SpatialForce

    constructor (frameNameIn: string, frameIdxIn: int, tIn: real, dtIn: real, FIn: SpatialForce)
      ensures frameName == frameNameIn && frameIdx == frameIdxIn
      ensures t == tIn && dt == dtIn && F == FIn
    {
      frameName, frameIdx := frameNameIn, frameIdxIn;
      t, dt, F := tIn, dtIn, FIn;
    }
  }

  /** `forceCoupling_t`: a force between a frame of one system and a frame
      of another. */
  class ForceCoupling {
    const systemName1: string
    const systemIdx1: int
    const systemName2: string
    const systemIdx2: int
    const frameName1: string
    const frameIdx1: int
    const frameName2: string
    const frameIdx2: int
    const forceFct: ForceCouplingFunctor

    constructor (systemName1In: string, systemIdx1In: int, systemName2In: string, systemIdx2In: int,
                 frameName1In: string, frameIdx1In: int, frameName2In: string, frameIdx2In: int,
                 forceFctIn: ForceCouplingFunctor)
      ensures systemName1 == systemName1In && systemIdx1 == systemIdx1In
      ensures systemName2 == systemName2In && systemIdx2 == systemIdx2In
      ensures frameName1 == frameName1In && frameIdx1 == frameIdx1In
      ensures frameName2 == frameName2In && frameIdx2 == frameIdx2In
      ensures forceFct == forceFctIn
    {
      systemName1, systemIdx1 := systemName1In, systemIdx1In;
      systemName2, systemIdx2 := systemName2In, systemIdx2In;
      frameName1, frameIdx1 := frameName1In, frameIdx1In;
      frameName2, frameIdx2 := frameName2In, frameIdx2In;
      forceFct := forceFctIn;
    }
  }

  /** `systemHolder_t`: a named robot, its controller and its callback. */
  class SystemHolder {
    var name: string
    var robot: Option<Handle>
    var controller: Option<Handle>
    var callbackFct: CallbackFunctor

    constructor (nameIn: string, robotIn: Option<Handle>, controllerIn: Option<Handle>, callbackFctIn: CallbackFunctor)
      ensures name == nameIn && robot == robotIn && controller == controllerIn && callbackFct == callbackFctIn
    {
      name, robot, controller, callbackFct := nameIn, robotIn, controllerIn, callbackFctIn;
    }

    /** The default holder: no name, no robot, no controller, and a callback
        that always asks to stop. */
    constructor Default()
      ensures name == "" && robot == None && controller == None
      ensures forall t, q, v :: !callbackFct(t, q, v)
    {
      name, robot, controller := "", None, None;
      callbackFct := (t: real, q: seq<real>, v: seq<real>) => false;
    }
  }

  /** What `systemState_t::initialize` reads of the robot; `neutral` is
      Pinocchio's neutral configuration of its model. */
  datatype RobotInfo = RobotInfo(isInitialized: bool, neutral: seq<real>, nv: nat, nMotors: nat, nJoints: nat)

  /** The value of a `systemState_t`, field by field. */
  datatype StateContents = StateContents(
    q: seq<real>, v: seq<real>, a: seq<real>, u: seq<real>,
    uCommand: seq<real>, uMotor: seq<real>, uInternal: seq<real>,
    fExternal: seq<SpatialForce>, isInitialized: bool)

  /** The contents `initialize` gives a state for `robot`. */
  function InitialContents(robot: RobotInfo): (r: StateContents)
    ensures r.isInitialized && r.q == robot.neutral
    ensures AllZero(r.v) && AllZero(r.a) && AllZero(r.u) && AllZero(r.uInternal)
    ensures |r.v| == |r.a| == |r.u| == |r.uInternal| == robot.nv
    ensures AllZero(r.uCommand) && AllZero(r.uMotor) && |r.uCommand| == |r.uMotor| == robot.nMotors
    ensures |r.fExternal| == robot.nJoints && forall i :: 0 <= i < robot.nJoints ==> r.fExternal[i] == ZeroForce
  {
    StateContents(robot.neutral, Zeros(robot.nv), Zeros(robot.nv), Zeros(robot.nv),
                  Zeros(robot.nMotors), Zeros(robot.nMotors), Zeros(robot.nv),
                  ZeroForces(robot.nJoints), true)
  }

  /** `systemState_t`: the state of one system. */
  class SystemState {
    var q: seq<real>
    var v: seq<real>
    var a: seq<real>
    var u: seq<real>
    var uCommand: seq<real>
    var uMotor: seq<real>
    var uInternal: seq<real>
    var fExternal: seq<SpatialForce>
    var isInitialized: bool

    function Contents(): StateContents
      reads this
    {
      StateContents(q, v, a, u, uCommand, uMotor, uInternal, fExternal, isInitialized)
    }

    /** Every buffer empty, not initialised. */
    constructor ()
      ensures Contents() == StateContents([], [], [], [], [], [], [], [], false)
    {
      q, v, a, u := [], [], [], [];
      uCommand, uMotor, uInternal := [], [], [];
      fExternal := [];
      isInitialized := false;
    }

    /** `initialize(robot)`: ERROR_INIT_FAILED for an uninitialised robot,
        leaving the state as it was; otherwise the neutral configuration,
        zero velocities, accelerations and efforts, one zero force per
        joint, and the state marked initialised. */
    method Initialize(robot: RobotInfo) returns (code: ResultCode)
      modifies this
      ensures !robot.isInitialized ==> code == ErrorInitFailed && Contents() == old(Contents())
      ensures robot.isInitialized ==> code == Success && Contents() == InitialContents(robot)
    {
      if !robot.isInitialized {
        return ErrorInitFailed;
      }
      q := robot.neutral;
      v := Zeros(robot.nv);
      a := Zeros(robot.nv);
      u := Zeros(robot.nv);
      uInternal := Zeros(robot.nv);
      uCommand := Zeros(robot.nMotors);
      uMotor := Zeros(robot.nMotors);
      fExternal := ZeroForces(robot.nJoints);
      isInitialized := true;
      code := Success;
    }

    /** The member-wise move assignment: every field takes the other
        state's value. */
    method MoveFrom(other: SystemState)
      modifies this
      ensures Contents() == old(other.Contents())
    {
      q, v, a, u := other.q, other.v, other.a, other.u;
      uCommand, uMotor, uInternal := other.uCommand, other.uMotor, other.uInternal;
      fExternal := other.fExternal;
      isInitialized := other.isInitialized;
    }
  }

  /** `systemDataHolder_t`: what the engine keeps for one system. */
  class SystemDataHolder {
    /** The lock on the robot's options, held while simulating. */
    var robotLock: Option<Handle>
    var forcesProfile: seq<ForceProfile>
    var forcesImpulse: seq<ForceImpulse>
    var forcesImpulseBreaks: seq<real>
    /** The iterator into `forcesImpulseBreaks`, as a position. */
    var forcesImpulseBreakNextIt: nat
    var forcesImpulseActive: seq<bool>
    var positionFieldnames: seq<string>
    var velocityFieldnames: seq<string>
    var accelerationFieldnames: seq<string>
    var motorEffortFieldnames: seq<string>
    var energyFieldname: string
    var state: SystemState
    var statePrev: SystemState

    /** The current and previous states are distinct objects. */
    ghost predicate Valid()
      reads this
    {
      state != statePrev
    }

    /** The default holder: no lock, empty registers and names, and two
        default states. */
    constructor ()
      ensures Valid() && fresh(state) && fresh(statePrev)
      ensures robotLock == None && forcesProfile == [] && forcesImpulse == []
      ensures forcesImpulseBreaks == [] && forcesImpulseBreakNextIt == 0 && forcesImpulseActive == []
      ensures positionFieldnames == [] && velocityFieldnames == [] && accelerationFieldnames == []
      ensures motorEffortFieldnames == [] && energyFieldname == ""
      ensures !state.isInitialized && !statePrev.isInitialized
    {
      robotLock := None;
      forcesProfile, forcesImpulse := [], [];
      forcesImpulseBreaks, forcesImpulseBreakNextIt, forcesImpulseActive := [], 0, [];
      positionFieldnames, velocityFieldnames, accelerationFieldnames := [], [], [];
      motorEffortFieldnames, energyFieldname := [], "";
      state := new SystemState();
      statePrev := new SystemState();
    }

    /** The move constructor: every field is taken from `other`, the two
        states by value; the lock changes owner, so `other` no longer holds
        it. */
    constructor Move(other: SystemDataHolder)
      modifies other`robotLock
      ensures Valid() && fresh(state) && fresh(statePrev)
      ensures robotLock == old(other.robotLock) && other.robotLock == None
      ensures Registers() == other.Registers()
      ensures state.Contents() == old(other.state.Contents())
      ensures statePrev.Contents() == old(other.statePrev.Contents())
    {
      robotLock := other.robotLock;
      forcesProfile, forcesImpulse := other.forcesProfile, other.forcesImpulse;
      forcesImpulseBreaks := other.forcesImpulseBreaks;
      forcesImpulseBreakNextIt := other.forcesImpulseBreakNextIt;
      forcesImpulseActive := other.forcesImpulseActive;
      positionFieldnames, velocityFieldnames := other.positionFieldnames, other.velocityFieldnames;
      accelerationFieldnames := other.accelerationFieldnames;
      motorEffortFieldnames, energyFieldname := other.motorEffortFieldnames, other.energyFieldname;
      var s := new SystemState();
      s.MoveFrom(other.state);
      var sPrev := new SystemState();
      sPrev.MoveFrom(other.statePrev);
      state, statePrev := s, sPrev;
      new;
      other.robotLock := None;
    }

    /** The move assignment: as the move constructor, into this holder's
        existing states. */
    method MoveAssign(other: SystemDataHolder)
      requires Valid() && other != this
      requires other.state != state && other.state != statePrev
      requires other.statePrev != state && other.statePrev != statePrev
      modifies this`robotLock, this`forcesProfile, this`forcesImpulse, this`forcesImpulseBreaks
      modifies this`forcesImpulseBreakNextIt, this`forcesImpulseActive, this`positionFieldnames
      modifies this`velocityFieldnames, this`accelerationFieldnames, this`motorEffortFieldnames
      modifies this`energyFieldname, state, statePrev, other`robotLock
      ensures Valid()
      ensures robotLock == old(other.robotLock) && other.robotLock == None
      ensures Registers() == other.Registers()
      ensures state.Contents() == old(other.state.Contents())
      ensures statePrev.Contents() == old(other.statePrev.Contents())
    {
      robotLock := other.robotLock;
      other.robotLock := None;
      TakeRegisters(other);
      state.MoveFrom(other.state);
      statePrev.MoveFrom(other.statePrev);
    }

    /** The force registers and telemetry names, as one value. */
    function Registers(): (seq<ForceProfile>, seq<ForceImpulse>, seq<real>, nat, seq<bool>,
                           seq<string>, seq<string>, seq<string>, seq<string>, string)
      reads this
    {
      (forcesProfile, forcesImpulse, forcesImpulseBreaks, forcesImpulseBreakNextIt, forcesImpulseActive,
       positionFieldnames, velocityFieldnames, accelerationFieldnames, motorEffortFieldnames, energyFieldname)
    }

    /** Moves the force registers and telemetry names of `other` here. */
    method TakeRegisters(other: SystemDataHolder)
      modifies this`forcesProfile, this`forcesImpulse, this`forcesImpulseBreaks
      modifies this`forcesImpulseBreakNextIt, this`forcesImpulseActive, this`positionFieldnames
      modifies this`velocityFieldnames, this`accelerationFieldnames, this`motorEffortFieldnames
      modifies this`energyFieldname
      ensures Registers() == old(other.Registers())
    {
      forcesProfile, forcesImpulse := other.forcesProfile, other.forcesImpulse;
      forcesImpulseBreaks := other.forcesImpulseBreaks;
      forcesImpulseBreakNextIt := other.forcesImpulseBreakNextIt;
      forcesImpulseActive := other.forcesImpulseActive;
      positionFieldnames, velocityFieldnames := other.positionFieldnames, other.velocityFieldnames;
      accelerationFieldnames := other.accelerationFieldnames;
      motorEffortFieldnames, energyFieldname := other.motorEffortFieldnames, other.energyFieldname;
    }
  }
}
