/**
 The save facade of the all-platforms save plugin (Assets/Runtime/SaveManager.cs).

 The C# class keeps two static fields: the lazily created singleton and the
 storage backend chosen by compile-time define symbols. `SaveStatics` holds that
 static state; `SaveManager` is the singleton object, which reads it. The
 backends themselves are not modelled: every call the facade hands to one is
 recorded in the ghost log `forwarded`, and every error the facade logs instead
 in the ghost log `errors`. The facade never invokes a completion callback
 itself; it only passes the callback on inside a forwarded call.
 */
module SaveFacade {
  import opened Wrappers

  /** The four storage backends; each is also the define symbol that selects it. */
  datatype SaveMethod =
    | JSONSerializationFileSave
    | JSONSerializationPlayerPrefs
    | BinarySerializationFileSave
    | BinarySerializationPlayerPrefs
  {
    /** The enum name, which is also the scripting define symbol. */
    function Name(): (s: string)
      ensures |s| > 0
    {
      match this
      case JSONSerializationFileSave => "JSONSerializationFileSave"
      case JSONSerializationPlayerPrefs => "JSONSerializationPlayerPrefs"
      case BinarySerializationFileSave => "BinarySerializationFileSave"
      case BinarySerializationPlayerPrefs => "BinarySerializationPlayerPrefs"
    }

    /** Position of the method's conditional block in AddRequiredScript. */
    function Rank(): nat
    {
      match this
      case JSONSerializationFileSave => 0
      case JSONSerializationPlayerPrefs => 1
      case BinarySerializationFileSave => 2
      case BinarySerializationPlayerPrefs => 3
    }
  }

  /** The outcome a backend reports to a completion callback. */
  datatype SaveResult = Success | Error | Empty

  /** A completion callback, named by the handler it stands for. */
  type CallbackName = string

  /** One call handed to a backend, with the arguments it was given. */
  datatype BackendCall<T> =
    | SaveCall(data: T, path: string, onComplete: CallbackName, encrypted: bool)
    | SaveStringCall(data: T, onComplete: CallbackName, encrypted: bool)
    | LoadCall(path: string, onComplete: CallbackName, encrypted: bool)
    | LoadStringCall(text: string, onComplete: CallbackName, encrypted: bool)
    | ClearAllDataCall(path: string)
    | ClearFileCall(path: string)

  /** A backend call together with the backend that received it. */
  datatype Forwarded<T> = Forwarded(backend: SaveMethod, call: BackendCall<T>)

  /** The error the facade logs when no backend is bound (the player build's wording). */
  const NotConfigured: string :=
    "Current platform is not added to plugin settings. Go to Window->Gley->Save and add your current platform"

  /**
   The backend bound by AddRequiredScript for a set of enabled define symbols:
   its four conditional blocks each overwrite the binding, so the enabled
   method whose block comes last wins, and with none enabled nothing is bound.
   */
  function SelectBackend(enabled: set<SaveMethod>): (r: Option<SaveMethod>)
    ensures r.None? <==> (forall m :: m !in enabled)
    ensures r.Some? ==> r.value in enabled
    ensures r.Some? ==> forall m :: m in enabled ==> m.Rank() <= r.value.Rank()
  {
    if BinarySerializationPlayerPrefs in enabled then Some(BinarySerializationPlayerPrefs)
    else if BinarySerializationFileSave in enabled then Some(BinarySerializationFileSave)
    else if JSONSerializationPlayerPrefs in enabled then Some(JSONSerializationPlayerPrefs)
    else if JSONSerializationFileSave in enabled then Some(JSONSerializationFileSave)
    else
      assert forall m :: m in enabled ==>
        m.JSONSerializationFileSave? || m.JSONSerializationPlayerPrefs? ||
        m.BinarySerializationFileSave? || m.BinarySerializationPlayerPrefs?;
      None
  }

  /** The static state of the C# SaveManager class. */
  class SaveStatics<T> {
    /** The save-method define symbols the build was compiled with. */
    const defines: set<SaveMethod>
    /** `_instance`: the singleton, null until first accessed. */
    var instance: SaveManager?<T>
    /** `_saveMethod`: the bound backend, null while none is bound. */
    var saveMethod: Option<SaveMethod>
    /** Every call forwarded to a backend, in order. */
    ghost var forwarded: seq<Forwarded<T>>
    /** Every error logged by the facade, in order. */
    ghost var errors: seq<string>

    /** The singleton, once created, reads this static state. */
    ghost predicate Valid()
      reads this
    {
      instance != null ==> instance.statics == this
    }

    constructor (defines: set<SaveMethod>)
      ensures Valid()
      ensures this.defines == defines
      ensures instance == null && saveMethod == None
      ensures forwarded == [] && errors == []
    {
      this.defines := defines;
      instance := null;
      saveMethod := None;
      forwarded := [];
      errors := [];
    }

    /**
     The state after an access to `Instance` that found `oldInstance` and
     `oldMethod`: the singleton exists, an existing one and its binding are
     kept, and a new one is bound as AddRequiredScript binds.
     */
    ghost predicate AccessedFrom(oldInstance: SaveManager?<T>, oldMethod: Option<SaveMethod>)
      reads this
    {
      instance != null &&
      (oldInstance != null ==> instance == oldInstance && saveMethod == oldMethod) &&
      (oldInstance == null ==> saveMethod == (if SelectBackend(defines).Some? then SelectBackend(defines) else oldMethod))
    }

    /**
     The `Instance` getter: creates the singleton and binds the backend on
     first access only; later accesses return the same object and leave the
     binding alone.
     */
    method Instance() returns (m: SaveManager<T>)
      requires Valid()
      modifies this`instance, this`saveMethod
      ensures Valid()
      ensures instance == m && m.statics == this
      ensures old(instance) != null ==> m == old(instance) && saveMethod == old(saveMethod)
      ensures old(instance) == null ==> fresh(m)
      ensures old(instance) == null ==>
        saveMethod == (if SelectBackend(defines).Some? then SelectBackend(defines) else old(saveMethod))
    {
      if instance == null {
        instance := new SaveManager(this);
        AddRequiredScript();
      }
      m := instance;
    }

    /** Binds the backend of every enabled define symbol in turn, so the last one wins. */
    method AddRequiredScript()
      modifies this`saveMethod
      ensures saveMethod == (if SelectBackend(defines).Some? then SelectBackend(defines) else old(saveMethod))
    {
      if JSONSerializationFileSave in defines {
        saveMethod := Some(JSONSerializationFileSave);
      }
      if JSONSerializationPlayerPrefs in defines {
        saveMethod := Some(JSONSerializationPlayerPrefs);
      }
      if BinarySerializationFileSave in defines {
        saveMethod := Some(BinarySerializationFileSave);
      }
      if BinarySerializationPlayerPrefs in defines {
        saveMethod := Some(BinarySerializationPlayerPrefs);
      }
    }
  }

  /** The singleton object; its operations read the static binding. */
  class SaveManager<T> {
    const statics: SaveStatics<T>

    constructor (statics: SaveStatics<T>)
      ensures this.statics == statics
    {
      this.statics := statics;
    }

    /** Forwards `call` to the bound backend, or logs the misconfiguration and does nothing else. */
    method Forward(call: BackendCall<T>)
      modifies statics`forwarded, statics`errors
      ensures statics.saveMethod.None? ==>
        statics.forwarded == old(statics.forwarded) && statics.errors == old(statics.errors) + [NotConfigured]
      ensures statics.saveMethod.Some? ==>
        statics.forwarded == old(statics.forwarded) + [Forwarded(statics.saveMethod.value, call)] &&
        statics.errors == old(statics.errors)
    {
      if statics.saveMethod == None {
        statics.errors := statics.errors + [NotConfigured];
        return;
      }
      statics.forwarded := statics.forwarded + [Forwarded(statics.saveMethod.value, call)];
    }

    /** Save: guarded delegation of one SaveCall with the same arguments. */
    method Save(data: T, path: string, onComplete: CallbackName, encrypted: bool)
      modifies statics`forwarded, statics`errors
      ensures statics.saveMethod.None? ==>
        statics.forwarded == old(statics.forwarded) && statics.errors == old(statics.errors) + [NotConfigured]
      ensures statics.saveMethod.Some? ==>
        statics.forwarded == old(statics.forwarded) + [Forwarded(statics.saveMethod.value, SaveCall(data, path, onComplete, encrypted))] &&
        statics.errors == old(statics.errors)
    {
      Forward(SaveCall(data, path, onComplete, encrypted));
    }

    /** SaveString has no guard: the C# code dereferences the binding, so one must exist. */
    method SaveString(data: T, onComplete: CallbackName, encrypted: bool)
      requires statics.saveMethod.Some?
      modifies statics`forwarded
      ensures statics.forwarded == old(statics.forwarded) + [Forwarded(statics.saveMethod.value, SaveStringCall(data, onComplete, encrypted))]
    {
      statics.forwarded := statics.forwarded + [Forwarded(statics.saveMethod.value, SaveStringCall(data, onComplete, encrypted))];
    }

    /** Load: guarded delegation of one LoadCall with the same arguments. */
    method Load(path: string, onComplete: CallbackName, encrypted: bool)
      modifies statics`forwarded, statics`errors
      ensures statics.saveMethod.None? ==>
        statics.forwarded == old(statics.forwarded) && statics.errors == old(statics.errors) + [NotConfigured]
      ensures statics.saveMethod.Some? ==>
        statics.forwarded == old(statics.forwarded) + [Forwarded(statics.saveMethod.value, LoadCall(path, onComplete, encrypted))] &&
        statics.errors == old(statics.errors)
    {
      Forward(LoadCall(path, onComplete, encrypted));
    }

    /** LoadString has no guard: a bound backend is required. */
    method LoadString(text: string, onComplete: CallbackName, encrypted: bool)
      requires statics.saveMethod.Some?
      modifies statics`forwarded
      ensures statics.forwarded == old(statics.forwarded) + [Forwarded(statics.saveMethod.value, LoadStringCall(text, onComplete, encrypted))]
    {
      statics.forwarded := statics.forwarded + [Forwarded(statics.saveMethod.value, LoadStringCall(text, onComplete, encrypted))];
    }

    /** ClearAllData: guarded delegation. */
    method ClearAllData(path: string)
      modifies statics`forwarded, statics`errors
      ensures statics.saveMethod.None? ==>
        statics.forwarded == old(statics.forwarded) && statics.errors == old(statics.errors) + [NotConfigured]
      ensures statics.saveMethod.Some? ==>
        statics.forwarded == old(statics.forwarded) + [Forwarded(statics.saveMethod.value, ClearAllDataCall(path))] &&
        statics.errors == old(statics.errors)
    {
      Forward(ClearAllDataCall(path));
    }

    /** ClearFIle: guarded delegation to the backend's ClearFile. */
    method ClearFIle(path: string)
      modifies statics`forwarded, statics`errors
      ensures statics.saveMethod.None? ==>
        statics.forwarded == old(statics.forwarded) && statics.errors == old(statics.errors) + [NotConfigured]
      ensures statics.saveMethod.Some? ==>
        statics.forwarded == old(statics.forwarded) + [Forwarded(statics.saveMethod.value, ClearFileCall(path))] &&
        statics.errors == old(statics.errors)
    {
      Forward(ClearFileCall(path));
    }
  }

  /**
   A process whose build enables no save method: the first access binds
   nothing, and a save and a load through the facade reach no backend and
   only log the misconfiguration twice.
   */
  method UnconfiguredProcess<T>(data: T, path: string) returns (statics: SaveStatics<T>)
    ensures statics.saveMethod.None?
    ensures statics.forwarded == []
    ensures statics.errors == [NotConfigured, NotConfigured]
  {
    statics := new SaveStatics({});
    var m := statics.Instance();
    m.Save(data, path, "onSaved", false);
    var m2 := statics.Instance();
    m2.Load(path, "onLoaded", false);
  }

  /**
   A process built with both JSON file and binary PlayerPrefs enabled: the
   later block wins, and a second access does not rebind.
   */
  method TwoDefinesProcess<T>(data: T, path: string) returns (statics: SaveStatics<T>)
    ensures statics.saveMethod == Some(BinarySerializationPlayerPrefs)
    ensures statics.forwarded == [Forwarded(BinarySerializationPlayerPrefs, SaveCall(data, path, "onSaved", true))]
    ensures statics.errors == []
  {
    statics := new SaveStatics({JSONSerializationFileSave, BinarySerializationPlayerPrefs});
    var m := statics.Instance();
    var m2 := statics.Instance();
    assert m2 == m;
    m2.Save(data, path, "onSaved", true);
  }
}
