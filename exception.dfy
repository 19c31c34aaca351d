/**
 * The exception syscalls: `sys_create_exception_channel`, which binds a new
 * channel to a task's exceptionate after a fixed chain of guards, and the two
 * accessors that hand out handles to the thread and process of a live
 * exception.
 */
module ExceptionSyscalls {
  import opened Base
  import opened Rights
  import opened Objects

  /** `ExceptionChannelOption`: `None = 0` (here `Normal`) and `Debugger = 1`. */
  datatype ExceptionChannelOption = Normal | Debugger

  /** The `repr(u32)` value of an option. */
  function OptionValue(o: ExceptionChannelOption): (v: u32)
    ensures v < 2
    ensures v == 0 <==> o == Normal
  {
    match o
    case Normal => 0
    case Debugger => 1
  }

  /** `ExceptionChannelOption::try_from(option).map_err(|_| INVALID_ARGS)`. */
  function DecodeOption(option: u32): (r: Result<ExceptionChannelOption>)
    ensures r.Ok? <==> option < 2
    ensures r.Ok? ==> OptionValue(r.value) == option
    ensures r.Err? ==> r.error == InvalidArgs
  {
    if option == 0 then Ok(Normal)
    else if option == 1 then Ok(Debugger)
    else Err(InvalidArgs)
  }

  lemma DecodeOptionRoundTrip(o: ExceptionChannelOption)
    ensures DecodeOption(OptionValue(o)) == Ok(o)
  {
  }

  /** INSPECT | DUPLICATE | TRANSFER | MANAGE_THREAD, demanded of every task handle. */
  const BaseRights: Rights := {Inspect, Duplicate, Transfer, ManageThread}

  /** TRANSFER | WAIT | READ, the rights of the channel end handed to the caller. */
  const ChannelEndRights: Rights := {Transfer, Wait, Read}

  predicate IsTask(k: Kind)
  {
    k.JobObject? || k.ProcessObject? || k.ThreadObject?
  }

  /**
   * The guard chain of `sys_create_exception_channel` once the handle is
   * resolved: base rights, option decoding, then the downcasts to Job,
   * Process and Thread with their own rules. Yields the exceptionate the
   * channel is to be created on.
   */
  function Admit(task: Handle, option: u32): (r: Result<Exceptionate>)
    ensures r.Ok? ==> r.value.owner == task.obj && IsTask(task.obj.kind)
    ensures r.Ok? ==> BaseRights <= task.rights
    ensures r.Ok? ==> (r.value.debugger <==> option == 1)
  {
    if !(BaseRights <= task.rights) then Err(AccessDenied)
    else
      match DecodeOption(option)
      case Err(e) => Err(e)
      case Ok(opt) =>
        var obj := task.obj;
        if obj.kind.JobObject? then
          if Enumerate !in task.rights then Err(AccessDenied)
          else if opt == Normal then Ok(Exceptionate(obj, false))   // job.get_exceptionate()
          else Ok(Exceptionate(obj, true))                          // job.get_debug_exceptionate()
        else if obj.kind.ProcessObject? then
          if Enumerate !in task.rights then Err(AccessDenied)
          else if opt == Normal then Ok(Exceptionate(obj, false))
          else Ok(Exceptionate(obj, true))
        else if obj.kind.ThreadObject? then
          if opt == Normal then Ok(Exceptionate(obj, false))
          else Err(InvalidArgs)
        else Err(WrongType)
  }

  /** Admission succeeds exactly when every guard of the chain passes. */
  lemma AdmitSucceedsIff(task: Handle, option: u32)
    ensures Admit(task, option).Ok? <==>
      && BaseRights <= task.rights
      && option < 2
      && IsTask(task.obj.kind)
      && (task.obj.kind.JobObject? || task.obj.kind.ProcessObject? ==> Enumerate in task.rights)
      && (task.obj.kind.ThreadObject? ==> option == 0)
  {
  }

  /** Missing base rights win over every later guard. */
  lemma BaseRightsCheckedFirst(task: Handle, option: u32)
    requires !(BaseRights <= task.rights)
    ensures Admit(task, option) == Err(AccessDenied)
  {
  }

  /** With the base rights present, a bad option value wins over the kind checks. */
  lemma OptionCheckedSecond(task: Handle, option: u32)
    requires BaseRights <= task.rights && option >= 2
    ensures Admit(task, option) == Err(InvalidArgs)
  {
  }

  /** A job or process handle without ENUMERATE is refused, whatever the option. */
  lemma JobOrProcessNeedsEnumerate(task: Handle, option: u32)
    requires BaseRights <= task.rights && option < 2
    requires task.obj.kind.JobObject? || task.obj.kind.ProcessObject?
    ensures Admit(task, option).Ok? <==> Enumerate in task.rights
    ensures Enumerate !in task.rights ==> Admit(task, option) == Err(AccessDenied)
  {
  }

  /** A thread handle never needs ENUMERATE, and never gets a debugger exceptionate. */
  lemma ThreadRules(task: Handle, option: u32)
    requires BaseRights <= task.rights && task.obj.kind.ThreadObject?
    ensures option == 0 ==> Admit(task, option) == Ok(Exceptionate(task.obj, false))
    ensures option == 1 ==> Admit(task, option) == Err(InvalidArgs)
  {
  }

  /** An object that is no task is WRONG_TYPE once rights and option pass. */
  lemma NonTaskIsWrongType(task: Handle, option: u32)
    requires BaseRights <= task.rights && option < 2 && !IsTask(task.obj.kind)
    ensures Admit(task, option) == Err(WrongType)
  {
  }

  /**
   * `sys_create_exception_channel`. `createChannel` stands for
   * `Exceptionate::create_channel`, which receives the two peer-rights
   * ceilings and may fail; its error is passed through. `minted` is the
   * handle value added to the table, if any.
   */
  method CreateExceptionChannel(
    proc: Process, task: HandleValue, option: u32,
    createChannel: (Exceptionate, Rights, Rights) -> Result<KernelObject>,
    out: UserOut)
    returns (r: Result<()>, written: Option<HandleValue>, ghost minted: Option<HandleValue>)
    requires proc.Valid()
    modifies proc
    ensures proc.Valid()
    ensures minted.None? ==> proc.handles == old(proc.handles) && r.Err? && written == None
    ensures minted.Some? ==> minted.value !in old(proc.handles) && (r, written) == WriteOut(out, minted.value)
    ensures match old(proc.GetDynObjectAndRights(task))
      case Err(e) => r == Err(e) && minted == None
      case Ok(h) =>
        match Admit(h, option)
        case Err(e) => r == Err(e) && minted == None
        case Ok(ex) =>
          match createChannel(ex, Restrict(h.rights, DefaultThread), Restrict(h.rights, DefaultProcess))
          case Err(e) => r == Err(e) && minted == None
          case Ok(channel) =>
            minted.Some? && proc.handles == old(proc.handles)[minted.value := Handle(channel, ChannelEndRights)]
  {
    written, minted := None, None;
    var resolved := proc.GetDynObjectAndRights(task);
    if resolved.Err? {
      return Err(resolved.error), written, minted;
    }
    var h := resolved.value;
    var admitted := Admit(h, option);
    if admitted.Err? {
      return Err(admitted.error), written, minted;
    }
    var made := createChannel(admitted.value, Restrict(h.rights, DefaultThread), Restrict(h.rights, DefaultProcess));
    if made.Err? {
      return Err(made.error), written, minted;
    }
    var userEnd := proc.AddHandle(Handle(made.value, ChannelEndRights));
    minted := Some(userEnd);
    var w := WriteOut(out, userEnd);
    r, written := w.0, w.1;
  }

  /** `sys_exception_get_thread`: a handle to the faulting thread, with the rights the exception stores for it. */
  method ExceptionGetThread(proc: Process, exception: HandleValue, out: UserOut)
    returns (r: Result<()>, written: Option<HandleValue>, ghost minted: Option<HandleValue>)
    requires proc.Valid()
    modifies proc
    ensures proc.Valid()
    ensures minted.None? ==> proc.handles == old(proc.handles) && r.Err? && written == None
    ensures minted.Some? ==> minted.value !in old(proc.handles) && (r, written) == WriteOut(out, minted.value)
    ensures match old(proc.GetExceptionWithRights(exception, DefaultRights))
      case Err(e) => r == Err(e) && minted == None
      case Ok(ex) =>
        minted.Some? && proc.handles == old(proc.handles)[minted.value := Handle(ex.thread, ex.threadRights)]
  {
    written, minted := None, None;
    var resolved := proc.GetExceptionWithRights(exception, DefaultRights);
    if resolved.Err? {
      return Err(resolved.error), written, minted;
    }
    var ex := resolved.value;
    var handle := proc.AddHandle(Handle(ex.thread, ex.threadRights));
    minted := Some(handle);
    var w := WriteOut(out, handle);
    r, written := w.0, w.1;
  }

  /**
   * `sys_exception_get_process`: a handle to the faulting process, refused
   * with ACCESS_DENIED while a thread exception channel is handling it.
   */
  method ExceptionGetProcess(proc: Process, exception: HandleValue, out: UserOut)
    returns (r: Result<()>, written: Option<HandleValue>, ghost minted: Option<HandleValue>)
    requires proc.Valid()
    modifies proc
    ensures proc.Valid()
    ensures minted.None? ==> proc.handles == old(proc.handles) && r.Err? && written == None
    ensures minted.Some? ==> minted.value !in old(proc.handles) && (r, written) == WriteOut(out, minted.value)
    ensures match old(proc.GetExceptionWithRights(exception, DefaultRights))
      case Err(e) => r == Err(e) && minted == None
      case Ok(ex) =>
        if ex.channelType == ThreadChannel then r == Err(AccessDenied) && minted == None
        else minted.Some? && proc.handles == old(proc.handles)[minted.value := Handle(ex.process, ex.processRights)]
  {
    written, minted := None, None;
    var resolved := proc.GetExceptionWithRights(exception, DefaultRights);
    if resolved.Err? {
      return Err(resolved.error), written, minted;
    }
    var ex := resolved.value;
    if ex.channelType == ThreadChannel {
      return Err(AccessDenied), written, minted;
    }
    var handle := proc.AddHandle(Handle(ex.process, ex.processRights));
    minted := Some(handle);
    var w := WriteOut(out, handle);
    r, written := w.0, w.1;
  }
}
