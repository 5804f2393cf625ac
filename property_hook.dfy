/** The hook on `__system_property_read_callback`: `my_hook` saves the
    caller's callback in a process-wide slot and calls the original with
    `handle_system_property` instead, which rewrites the first API level to
    "32" and forwards everything to the saved callback. */
module PropertyHook {
  import opened SystemProperty

  /** The value every reader of `ro.product.first_api_level` is shown. */
  const OVERRIDE_VALUE: string := "32"

  /** A `prop_info`: the property the platform is asked to report. */
  datatype PropInfo = PropInfo(name: string, value: string, serial: nat)

  /** The four arguments of a `T_Callback`; `cookie` is the caller's opaque
      pointer, kept as a number. */
  datatype CallbackArgs = CallbackArgs(cookie: nat, name: string, value: string, serial: nat)

  /** A caller-supplied callback, known by its identity (its address). */
  type ClientCallback = nat

  /** What `readCallback` may be handed: a caller's callback, or the
      module's own `handle_system_property`. */
  datatype Callback = Client(id: ClientCallback) | HandleSystemProperty

  /** One call of a caller's callback: which callback, with which arguments. */
  datatype Delivery = Delivery(target: ClientCallback, args: CallbackArgs)

  datatype Option<T> = None | Some(value: T)

  /** The substitution `handle_system_property` performs on its arguments
      before forwarding them. */
  function Substitute(a: CallbackArgs): (r: CallbackArgs)
    ensures r.cookie == a.cookie && r.name == a.name && r.serial == a.serial
    ensures a.name == FIRST_API_LEVEL ==> r.value == OVERRIDE_VALUE
    ensures a.name != FIRST_API_LEVEL ==> r == a
  {
    if a.name == FIRST_API_LEVEL then a.(value := OVERRIDE_VALUE) else a
  }

  /** The arguments the original `__system_property_read_callback` passes
      to the callback it is given. */
  function ReadArgs(pi: PropInfo, cookie: nat): CallbackArgs {
    CallbackArgs(cookie, pi.name, pi.value, pi.serial)
  }

  /** A read through the platform primitive before the hook is installed:
      the caller's callback sees the property as it is. */
  function PlainRead(pi: PropInfo, callback: ClientCallback, cookie: nat): (d: Delivery)
    ensures d.target == callback && d.args.cookie == cookie
    ensures d.args.name == pi.name && d.args.value == pi.value && d.args.serial == pi.serial
  {
    Delivery(callback, ReadArgs(pi, cookie))
  }

  /** A read through `my_hook`: the callback the caller passed receives the
      override for the first API level, and for every other property exactly
      what an unhooked read would have given it. */
  function HookedRead(pi: PropInfo, callback: ClientCallback, cookie: nat): (d: Delivery)
    ensures d.target == callback
    ensures d.args.cookie == cookie && d.args.name == pi.name && d.args.serial == pi.serial
    ensures pi.name == FIRST_API_LEVEL ==> d.args.value == OVERRIDE_VALUE
    ensures pi.name != FIRST_API_LEVEL ==> d == PlainRead(pi, callback, cookie)
  {
    Delivery(callback, Substitute(ReadArgs(pi, cookie)))
  }

  /** The process-wide state of the hook: whether the platform primitive is
      redirected to `my_hook` (which also means `o_hook` holds the
      trampoline to the original), the `o_callback` slot, and every call
      made to a caller's callback, in order. */
  class Interceptor {
    var installed: bool
    var savedCallback: Option<ClientCallback>
    var deliveries: seq<Delivery>

    /** The state at process start: nothing hooked, `o_callback` null. */
    constructor ()
      ensures !installed && savedCallback == None && deliveries == []
    {
      installed := false;
      savedCallback := None;
      deliveries := [];
    }

    /** `DobbyHook` of `my_hook` over the resolved primitive. */
    method Install()
      modifies this
      ensures installed
      ensures savedCallback == old(savedCallback) && deliveries == old(deliveries)
    {
      installed := true;
    }

    /** A call of `__system_property_read_callback(pi, callback, cookie)`
        by any reader in the process: once hooked, it enters `my_hook`. */
    method ReadCallback(pi: PropInfo, callback: ClientCallback, cookie: nat)
      modifies this
      ensures installed == old(installed)
      ensures savedCallback == if installed then Some(callback) else old(savedCallback)
      ensures deliveries == old(deliveries)
        + [if installed then HookedRead(pi, callback, cookie) else PlainRead(pi, callback, cookie)]
    {
      if installed {
        MyHook(pi, callback, cookie);
      } else {
        OriginalReadCallback(pi, Client(callback), cookie);
      }
    }

    /** `my_hook`: store the caller's callback in `o_callback`, then call the
        original through the trampoline with `handle_system_property`. */
    method MyHook(pi: PropInfo, callback: ClientCallback, cookie: nat)
      modifies this
      ensures installed == old(installed)
      ensures savedCallback == Some(callback)
      ensures deliveries == old(deliveries) + [HookedRead(pi, callback, cookie)]
    {
      savedCallback := Some(callback);
      OriginalReadCallback(pi, HandleSystemProperty, cookie);
    }

    /** The original primitive (`o_hook` once hooked): it calls the
        callback it is given with the property's name, value and serial. */
    method OriginalReadCallback(pi: PropInfo, callback: Callback, cookie: nat)
      requires callback.HandleSystemProperty? ==> savedCallback.Some?
      modifies this
      ensures installed == old(installed) && savedCallback == old(savedCallback)
      ensures deliveries == old(deliveries) + [
        match callback
        case Client(id) => Delivery(id, ReadArgs(pi, cookie))
        case HandleSystemProperty => Delivery(savedCallback.value, Substitute(ReadArgs(pi, cookie)))]
    {
      match callback
      case Client(id) =>
        deliveries := deliveries + [Delivery(id, ReadArgs(pi, cookie))];
      case HandleSystemProperty =>
        HandleSystemPropertyCall(cookie, pi.name, pi.value, pi.serial);
    }

    /** `handle_system_property`: substitute, then forward to `o_callback`. */
    method HandleSystemPropertyCall(cookie: nat, name: string, value: string, serial: nat)
      requires savedCallback.Some?
      modifies this
      ensures installed == old(installed) && savedCallback == old(savedCallback)
      ensures deliveries == old(deliveries)
        + [Delivery(savedCallback.value, Substitute(CallbackArgs(cookie, name, value, serial)))]
    {
      var forwarded := Substitute(CallbackArgs(cookie, name, value, serial));
      deliveries := deliveries + [Delivery(savedCallback.value, forwarded)];
    }
  }
}
