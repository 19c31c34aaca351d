/**
 * The kernel-object collaborators of the exception syscalls: status codes,
 * kernel objects with a closed kind tag, handles, exceptionates and a
 * process's handle table. Their bodies live outside the syscall layer, so
 * they are modelled only as far as the syscalls observe them.
 */
module Objects {
  import opened Base
  import opened Rights

  /** The `ZxError` codes the syscalls can return. */
  datatype ZxError =
    | BadHandle | WrongType | AccessDenied | InvalidArgs
    | AlreadyBound | NoMemory | BadState

  /** `ZxResult<T>`. */
  datatype Result<+T> = Ok(value: T) | Err(error: ZxError)

  /** Zircon's `zx_exception_channel_type_t`: which tier is handling an exception. */
  datatype ChannelType =
    | NoChannel | DebuggerChannel | ThreadChannel | ProcessChannel | JobChannel | JobDebuggerChannel

  /**
   * A live `ExceptionObject`: the faulting thread and its process, the rights
   * to grant on each, and the channel type currently handling it.
   */
  datatype ExceptionRecord = ExceptionRecord(
    thread: KernelObject, threadRights: Rights,
    process: KernelObject, processRights: Rights,
    channelType: ChannelType)

  /** The closed set of kinds `downcast_arc` can distinguish. */
  datatype Kind =
    | JobObject | ProcessObject | ThreadObject | ChannelObject
    | ExceptionObject(exception: ExceptionRecord)
    | OtherObject

  /** A shared kernel object, identified by its koid. */
  datatype KernelObject = KernelObject(koid: nat, kind: Kind)

  type HandleValue = nat

  /** `Handle::new(object, rights)`. */
  datatype Handle = Handle(obj: KernelObject, rights: Rights)

  /** One of the exception endpoints a job, process or thread owns (the debugger one only for jobs and processes). */
  datatype Exceptionate = Exceptionate(owner: KernelObject, debugger: bool)

  /** A caller-provided `UserOutPtr`: a store to it either succeeds or fails with an error. */
  datatype UserOut = Writable | Faulting(error: ZxError)

  /** `out.write(value)`: what the syscall returns and what the user slot then holds. */
  function WriteOut(out: UserOut, value: HandleValue): (r: (Result<()>, Option<HandleValue>))
    ensures r.0.Ok? <==> out.Writable?
    ensures r.0.Ok? ==> r.1 == Some(value)
    ensures r.0.Err? ==> r.0.error == out.error && r.1 == None
  {
    match out
    case Writable => (Ok(()), Some(value))
    case Faulting(e) => (Err(e), None)
  }

  /** The handle table of a process. */
  class Process {
    var handles: map<HandleValue, Handle>
    var nextValue: HandleValue

    /** Every handle value in use lies below the next one to be handed out. */
    ghost predicate Valid()
      reads this
    {
      forall v :: v in handles ==> v < nextValue
    }

    constructor ()
      ensures Valid() && handles == map[]
    {
      handles := map[];
      nextValue := 0;
    }

    /** `get_dyn_object_and_rights`: BAD_HANDLE unless the value is in the table. */
    function GetDynObjectAndRights(value: HandleValue): (r: Result<Handle>)
      reads this
      ensures r.Ok? <==> value in handles
      ensures r.Ok? ==> r.value == handles[value]
      ensures r.Err? ==> r.error == BadHandle
    {
      if value in handles then Ok(handles[value]) else Err(BadHandle)
    }

    /**
     * `get_object_with_rights::<ExceptionObject>`: resolve the value, downcast
     * to an exception object, then check the desired rights.
     */
    function GetExceptionWithRights(value: HandleValue, desired: Rights): (r: Result<ExceptionRecord>)
      reads this
      ensures r.Ok? <==>
        value in handles && handles[value].obj.kind.ExceptionObject? && desired <= handles[value].rights
      ensures r.Ok? ==> r.value == handles[value].obj.kind.exception
      ensures value !in handles ==> r == Err(BadHandle)
      ensures value in handles && !handles[value].obj.kind.ExceptionObject? ==> r == Err(WrongType)
      ensures value in handles && handles[value].obj.kind.ExceptionObject? && !(desired <= handles[value].rights) ==>
        r == Err(AccessDenied)
    {
      match GetDynObjectAndRights(value)
      case Err(e) => Err(e)
      case Ok(h) =>
        if !h.obj.kind.ExceptionObject? then Err(WrongType)
        else if !(desired <= h.rights) then Err(AccessDenied)
        else Ok(h.obj.kind.exception)
    }

    /** `add_handle`: insert under a value not in use and return that value. */
    method AddHandle(h: Handle) returns (value: HandleValue)
      requires Valid()
      modifies this
      ensures Valid()
      ensures value !in old(handles)
      ensures handles == old(handles)[value := h]
    {
      value := nextValue;
      handles := handles[value := h];
      nextValue := nextValue + 1;
    }
  }
}
