/** The bookkeeping of `AbstractController`: its initialisation against a
    model, and the registry of telemetry variables and constants that
    `configureTelemetry` later hands to the telemetry sender. */
module Controller {
  import opened Common

  /** A registered variable: its name and the address of the value it logs. */
  datatype Registered = Registered(name: string, address: nat)

  /** What the controller reads of its model. */
  datatype ControllerModel = ControllerModel(isInitialized: bool, nq: nat, nv: nat, nMotors: nat)

  /** How a user callback ended: it threw, or it returned a code and left its
      output buffer with some size. */
  datatype CallOutcome = Threw | Returned(code: ResultCode, size: nat)

  function Names(vars: seq<Registered>): (r: seq<string>)
    ensures |r| == |vars| && forall i :: 0 <= i < |vars| ==> r[i] == vars[i].name
  {
    seq(|vars|, i requires 0 <= i < |vars| => vars[i].name)
  }

  predicate Distinct(names: seq<string>)
  {
    forall i, j :: 0 <= i < j < |names| ==> names[i] != names[j]
  }

  /** The entries the batch overload appends for `fieldNames`: name i logs
      the value at `values + i`. */
  function BatchEntries(fieldNames: seq<string>, values: nat): (r: seq<Registered>)
    ensures |r| == |fieldNames|
    ensures forall i :: 0 <= i < |r| ==> r[i] == Registered(fieldNames[i], values + i)
  {
    seq(|fieldNames|, i requires 0 <= i < |fieldNames| => Registered(fieldNames[i], values + i))
  }

  /** The position of the first name of the batch that is already present,
      counting the names of the batch registered before it; `|batch|` when
      there is none. */
  function FirstDuplicate(existing: seq<string>, batch: seq<string>): (k: nat)
    ensures k <= |batch|
    ensures forall j :: 0 <= j < k ==> batch[j] !in existing + batch[..j]
    ensures k < |batch| ==> batch[k] in existing + batch[..k]
    decreases |batch|
  {
    if |batch| == 0 then 0
    else if batch[0] in existing then 0
    else
      var k := 1 + FirstDuplicate(existing + [batch[0]], batch[1..]);
      assert forall j :: 1 <= j <= |batch| ==> existing + batch[..j] == existing + [batch[0]] + batch[1..][..j - 1];
      k
  }

  /** A batch is registered in full exactly when its names are new and
      pairwise distinct; the registry then stays free of duplicates. */
  lemma BatchSucceedsIffFresh(existing: seq<string>, batch: seq<string>)
    requires Distinct(existing)
    ensures FirstDuplicate(existing, batch) == |batch| <==>
              (forall j :: 0 <= j < |batch| ==> batch[j] !in existing) && Distinct(batch)
    ensures FirstDuplicate(existing, batch) == |batch| ==> Distinct(existing + batch)
  {
    var k := FirstDuplicate(existing, batch);
    if k == |batch| {
      forall i, j | 0 <= i < j < |batch| ensures batch[i] != batch[j] {
        assert batch[i] in batch[..j];
      }
      forall i, j | 0 <= i < j < |existing + batch| ensures (existing + batch)[i] != (existing + batch)[j] {
        if j >= |existing| {
          var jb := j - |existing|;
          if i < |existing| {
            assert (existing + batch)[i] in existing + batch[..jb];
          } else {
            assert (existing + batch)[i] == batch[i - |existing|];
            assert batch[i - |existing|] in batch[..jb];
          }
        }
      }
    } else {
      var x := batch[k];
      assert x in existing + batch[..k];
      if x !in existing {
        assert x in batch[..k];
        var i :| 0 <= i < k && batch[i] == x;
        assert !Distinct(batch);
      }
    }
  }

  /** The sequence of code results of registering `names` one by one with
      the telemetry sender, stopping at the first failure. */
  function FirstFailure(codes: seq<ResultCode>): (r: ResultCode)
    ensures r == Success <==> forall i :: 0 <= i < |codes| ==> codes[i] == Success
    ensures r != Success ==> r in codes
  {
    if |codes| == 0 then Success
    else if codes[0] != Success then codes[0]
    else FirstFailure(codes[1..])
  }

  class AbstractController {
    var isInitialized: bool
    var isTelemetryConfigured: bool
    /** The `telemetryEnable` option. */
    var telemetryEnable: bool
    var model: Option<ControllerModel>
    var variables: seq<Registered>
    var constants: seq<(string, string)>

    /** Variable names are unique. */
    ghost predicate Valid()
      reads this
    {
      Distinct(Names(variables))
    }

    constructor (telemetryEnableOption: bool)
      ensures Valid() && !isInitialized && !isTelemetryConfigured
      ensures telemetryEnable == telemetryEnableOption && model == None
      ensures variables == [] && constants == []
    {
      isInitialized, isTelemetryConfigured := false, false;
      telemetryEnable := telemetryEnableOption;
      model := None;
      variables, constants := [], [];
    }

    /** `initialize(model)`: an uninitialised model is refused and nothing
        changes; otherwise the controller is marked initialised and its two
        callbacks are probed: a throw clears the flag (ERROR_GENERIC); a
        command or internal-dynamics buffer of the wrong size is
        ERROR_BAD_INPUT with the flag left set; the command's own failure
        code is passed on. */
    method Initialize(m: ControllerModel, command: CallOutcome, internal: CallOutcome) returns (code: ResultCode)
      requires Valid()
      modifies this`model, this`isInitialized
      ensures Valid()
      ensures !m.isInitialized ==> code == ErrorInitFailed && model == old(model) && isInitialized == old(isInitialized)
      ensures m.isInitialized ==> model == Some(m)
      ensures m.isInitialized && (command.Threw? || (command.code == Success && command.size == m.nMotors && internal.Threw?)) ==>
                code == ErrorGeneric && !isInitialized
      ensures m.isInitialized && command.Returned? && command.code != Success ==>
                code == command.code && isInitialized
      ensures m.isInitialized && command.Returned? && command.code == Success && command.size != m.nMotors ==>
                code == ErrorBadInput && isInitialized
      ensures m.isInitialized && command.Returned? && command.code == Success && command.size == m.nMotors
                && internal.Returned? ==>
                isInitialized && code == (if internal.size != m.nv then ErrorBadInput else Success)
    {
      if !m.isInitialized {
        return ErrorInitFailed;
      }
      model := Some(m);
      isInitialized := true;
      if command.Threw? {
        isInitialized := false;
        return ErrorGeneric;
      }
      code := command.code;
      if code == Success {
        if command.size != m.nMotors {
          return ErrorBadInput;
        }
        if internal.Threw? {
          isInitialized := false;
          return ErrorGeneric;
        }
        if internal.size != m.nv {
          return ErrorBadInput;
        }
      }
    }

    /** `setOptions`: only the `telemetryEnable` entry is read here. */
    method SetOptions(telemetryEnableOption: bool)
      modifies this`telemetryEnable
      ensures telemetryEnable == telemetryEnableOption
    {
      telemetryEnable := telemetryEnableOption;
    }

    /** `removeEntries`: both registries emptied. */
    method RemoveEntries()
      modifies this`variables, this`constants
      ensures Valid() && variables == [] && constants == []
    {
      variables, constants := [], [];
    }

    /** `reset(resetDynamicTelemetry)`: the registries are emptied only when
        asked; the telemetry configuration is always dropped. */
    method Reset(resetDynamicTelemetry: bool)
      requires Valid()
      modifies this`variables, this`constants, this`isTelemetryConfigured
      ensures Valid() && !isTelemetryConfigured
      ensures resetDynamicTelemetry ==> variables == [] && constants == []
      ensures !resetDynamicTelemetry ==> variables == old(variables) && constants == old(constants)
    {
      if resetDynamicTelemetry {
        RemoveEntries();
      }
      isTelemetryConfigured := false;
    }

    /** `registerVariable(fieldName, value)`: refused once telemetry is
        configured, refused for a name already registered, else appended. */
    method RegisterVariable(fieldName: string, value: nat) returns (code: ResultCode)
      requires Valid()
      modifies this`variables
      ensures Valid()
      ensures code == if isTelemetryConfigured then ErrorInitFailed
                      else if fieldName in Names(old(variables)) then ErrorBadInput
                      else Success
      ensures variables == if code == Success then old(variables) + [Registered(fieldName, value)]
                           else old(variables)
    {
      if isTelemetryConfigured {
        return ErrorInitFailed;
      }
      if fieldName in Names(variables) {
        return ErrorBadInput;
      }
      BatchSucceedsIffFresh(Names(variables), [fieldName]);
      assert Names(variables + [Registered(fieldName, value)]) == Names(variables) + [fieldName];
      variables := variables + [Registered(fieldName, value)];
      code := Success;
    }

    /** `registerVariable(fieldNames, values)`: refused once telemetry is
        configured; otherwise the names are registered in order, and the
        first one already present (including earlier names of the same
        batch) stops the batch with ERROR_BAD_INPUT, the names before it
        staying registered. */
    method RegisterVariables(fieldNames: seq<string>, values: nat) returns (code: ResultCode)
      requires Valid()
      modifies this`variables
      ensures Valid()
      ensures isTelemetryConfigured ==> code == ErrorInitFailed && variables == old(variables)
      ensures !isTelemetryConfigured ==>
                var k := FirstDuplicate(Names(old(variables)), fieldNames);
                && code == (if k < |fieldNames| then ErrorBadInput else Success)
                && variables == old(variables) + BatchEntries(fieldNames[..k], values)
    {
      if isTelemetryConfigured {
        return ErrorInitFailed;
      }
      ghost var existing := Names(variables);
      ghost var k := FirstDuplicate(existing, fieldNames);
      var i := 0;
      while i < |fieldNames|
        invariant i <= k
        invariant variables == old(variables) + BatchEntries(fieldNames[..i], values)
        invariant Names(variables) == existing + fieldNames[..i]
        invariant Valid()
      {
        var name := fieldNames[i];
        FirstDuplicateAt(existing, fieldNames, i);
        if name in Names(variables) {
          return ErrorBadInput;
        }
        var entry := Registered(name, values + i);
        RegisterFresh(variables, entry);
        BatchEntriesSnoc(fieldNames, values, i);
        assert variables + [entry] == old(variables) + BatchEntries(fieldNames[..i + 1], values);
        variables := variables + [entry];
        i := i + 1;
      }
      assert fieldNames[..i] == fieldNames;
      code := Success;
    }

    /** `configureTelemetry(telemetryData)`: ERROR_INIT_FAILED when not
        initialised; when not yet configured and telemetry is enabled, every
        variable and then every constant is registered with the sender
        (`variableCode` and `constantCode` are its answers for a name) until
        the first failure, a
        missing telemetry object being ERROR_INIT_FAILED; configured only
        if every registration succeeded. */
    method ConfigureTelemetry(hasTelemetryData: bool, variableCode: string -> ResultCode, constantCode: string -> ResultCode)
      returns (code: ResultCode)
      requires Valid()
      modifies this`isTelemetryConfigured
      ensures Valid()
      ensures !isInitialized ==> code == ErrorInitFailed
      ensures isInitialized && (old(isTelemetryConfigured) || !telemetryEnable) ==> code == Success
      ensures isInitialized && !old(isTelemetryConfigured) && telemetryEnable && !hasTelemetryData ==>
                code == ErrorInitFailed
      ensures isInitialized && !old(isTelemetryConfigured) && telemetryEnable && hasTelemetryData ==>
                code == FirstFailure(SenderCodes(Names(variables), variableCode) + SenderCodes(ConstantNames(constants), constantCode))
      ensures isTelemetryConfigured <==>
                old(isTelemetryConfigured) || (code == Success && telemetryEnable && hasTelemetryData)
    {
      code := Success;
      if !isInitialized {
        code := ErrorInitFailed;
      }
      if !isTelemetryConfigured && telemetryEnable {
        if hasTelemetryData {
          var names := Names(variables);
          var constantNames := ConstantNames(constants);
          code := RegisterAll(code, names, variableCode);
          code := RegisterAll(code, constantNames, constantCode);
          FirstFailureAppend(SenderCodes(names, variableCode), SenderCodes(constantNames, constantCode));
          if code == Success {
            isTelemetryConfigured := true;
          }
        } else {
          code := ErrorInitFailed;
        }
      }
    }

    /** `updateTelemetry`: when configured, one update per registered
        variable, in registration order, with the value at its address. */
    method UpdateTelemetry(memory: nat -> real) returns (sent: seq<(string, real)>)
      ensures |sent| == if isTelemetryConfigured then |variables| else 0
      ensures forall i :: 0 <= i < |sent| ==> sent[i] == (variables[i].name, memory(variables[i].address))
    {
      sent := [];
      if isTelemetryConfigured {
        for i := 0 to |variables|
          invariant |sent| == i
          invariant forall k :: 0 <= k < i ==> sent[k] == (variables[k].name, memory(variables[k].address))
        {
          sent := sent + [(variables[i].name, memory(variables[i].address))];
        }
      }
    }
  }

  /** The names of the registered constants. */
  function ConstantNames(constants: seq<(string, string)>): (r: seq<string>)
    ensures |r| == |constants| && forall i :: 0 <= i < |constants| ==> r[i] == constants[i].0
  {
    seq(|constants|, i requires 0 <= i < |constants| => constants[i].0)
  }

  /** The sender's answer for each name, in order. */
  function SenderCodes(names: seq<string>, senderCode: string -> ResultCode): (r: seq<ResultCode>)
    ensures |r| == |names| && forall i :: 0 <= i < |names| ==> r[i] == senderCode(names[i])
  {
    seq(|names|, i requires 0 <= i < |names| => senderCode(names[i]))
  }

  /** One registration loop of `configureTelemetry`: each name is handed to
      the sender while every earlier registration succeeded. */
  method RegisterAll(code0: ResultCode, names: seq<string>, senderCode: string -> ResultCode) returns (code: ResultCode)
    ensures code == if code0 == Success then FirstFailure(SenderCodes(names, senderCode)) else code0
  {
    ghost var codes := SenderCodes(names, senderCode);
    code := code0;
    for i := 0 to |names|
      invariant code == if code0 == Success then FirstFailure(codes[..i]) else code0
    {
      if code == Success {
        code := senderCode(names[i]);
      }
      FirstFailureSnoc(codes[..i], codes[i]);
      assert codes[..i + 1] == codes[..i] + [codes[i]];
    }
    assert codes[..|names|] == codes;
  }

  /** The first failure of two sequences of answers in a row. */
  lemma {:induction false} FirstFailureAppend(a: seq<ResultCode>, b: seq<ResultCode>)
    ensures FirstFailure(a + b) == if FirstFailure(a) == Success then FirstFailure(b) else FirstFailure(a)
  {
    if |a| > 0 {
      assert (a + b)[1..] == a[1..] + b;
      FirstFailureAppend(a[1..], b);
    } else {
      assert a + b == b;
    }
  }

  /** Appending an entry whose name is new keeps the names distinct. */
  lemma RegisterFresh(vars: seq<Registered>, r: Registered)
    requires Distinct(Names(vars)) && r.name !in Names(vars)
    ensures Names(vars + [r]) == Names(vars) + [r.name]
    ensures Distinct(Names(vars + [r]))
  {
    assert Names(vars + [r]) == Names(vars) + [r.name];
  }

  /** Scanning the batch in order, the name at a position not past the first
      duplicate is that duplicate exactly when it is already present. */
  lemma FirstDuplicateAt(existing: seq<string>, batch: seq<string>, i: nat)
    requires i <= FirstDuplicate(existing, batch) && i < |batch|
    ensures batch[i] in existing + batch[..i] <==> FirstDuplicate(existing, batch) == i
  {
  }

  /** The batch entries of one more name. */
  lemma BatchEntriesSnoc(fieldNames: seq<string>, values: nat, i: nat)
    requires i < |fieldNames|
    ensures BatchEntries(fieldNames[..i + 1], values)
         == BatchEntries(fieldNames[..i], values) + [Registered(fieldNames[i], values + i)]
  {
  }

  /** Registering one more name: the first failure of the longer sequence. */
  lemma FirstFailureSnoc(codes: seq<ResultCode>, c: ResultCode)
    ensures FirstFailure(codes + [c]) == if FirstFailure(codes) == Success then c else FirstFailure(codes)
  {
    if |codes| > 0 {
      assert (codes + [c])[1..] == codes[1..] + [c];
      FirstFailureSnoc(codes[1..], c);
    }
  }
}
