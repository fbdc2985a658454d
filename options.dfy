/** The application's option store. In the program every option is a static field of
    `AppOptions` and there is exactly one instance; here the fields live on that one
    instance, which `Application` hands out. */
module Options {
  import opened Common

  /** Values of the output-method constants. Their declaring class is not part of this
      model; only their being distinct matters. */
  const OUTPUT_SPC: string := "spc"
  const OUTPUT_TAB: string := "tab"
  const OUTPUT_CSV: string := "csv"

  /** A value copy of every option, for stating what a setter leaves alone. */
  datatype Settings = Settings(
    outputMethod: string,
    settingsFile: string,
    selectedFingerprintType: Option<string>,
    addH: bool,
    debug: bool)

  /** The options a freshly loaded program starts with. */
  const InitialSettings: Settings :=
    Settings(OUTPUT_SPC, "", None, true, false)

  class AppOptions {
    var outputMethod: string
    var settingsFile: string
    var selectedFingerprintType: Option<string>
    var addH: bool
    var debug: bool

    function Snapshot(): Settings
      reads this
    {
      Settings(outputMethod, settingsFile, selectedFingerprintType, addH, debug)
    }

    /** The private constructor together with the static initialisers. */
    constructor ()
      ensures Snapshot() == InitialSettings
    {
      outputMethod := OUTPUT_SPC;
      settingsFile := "";
      selectedFingerprintType := None;
      addH := true;
      debug := false;
    }

    method GetSelectedFingerprintType() returns (r: Option<string>)
      ensures r == selectedFingerprintType
    {
      r := selectedFingerprintType;
    }

    method SetSelectedFingerprintType(t: Option<string>)
      modifies this`selectedFingerprintType
      ensures Snapshot() == old(Snapshot()).(selectedFingerprintType := t)
    {
      selectedFingerprintType := t;
    }

    method GetSettingsFile() returns (r: string)
      ensures r == settingsFile
    {
      r := settingsFile;
    }

    method SetSettingsFile(f: string)
      modifies this`settingsFile
      ensures Snapshot() == old(Snapshot()).(settingsFile := f)
    {
      settingsFile := f;
    }

    method IsDebug() returns (r: bool)
      ensures r == debug
    {
      r := debug;
    }

    method SetDebug(b: bool)
      modifies this`debug
      ensures Snapshot() == old(Snapshot()).(debug := b)
    {
      debug := b;
    }

    method GetOutputMethod() returns (r: string)
      ensures r == outputMethod
    {
      r := outputMethod;
    }

    method SetOutputMethod(m: string)
      modifies this`outputMethod
      ensures Snapshot() == old(Snapshot()).(outputMethod := m)
    {
      outputMethod := m;
    }

    method IsAddH() returns (r: bool)
      ensures r == addH
    {
      r := addH;
    }

    method SetAddH(b: bool)
      modifies this`addH
      ensures Snapshot() == old(Snapshot()).(addH := b)
    {
      addH := b;
    }
  }

  /** Holder of the single `AppOptions` instance (the static `ourInstance`). */
  class Application {
    const ourInstance: AppOptions

    constructor ()
      ensures fresh(ourInstance)
      ensures ourInstance.Snapshot() == InitialSettings
    {
      ourInstance := new AppOptions();
    }

    method GetInstance() returns (r: AppOptions)
      ensures r == ourInstance
    {
      r := ourInstance;
    }
  }

  /** Setting then reading an option gives back what was set, whatever the option held
      before, and the other options keep their values. */
  method SetThenGet(o: AppOptions, t: Option<string>, m: string, f: string, h: bool, d: bool)
    modifies o
    ensures o.Snapshot() == Settings(m, f, t, h, d)
  {
    o.SetSelectedFingerprintType(t);
    var t' := o.GetSelectedFingerprintType();
    assert t' == t;
    o.SetOutputMethod(m);
    var m' := o.GetOutputMethod();
    assert m' == m;
    t' := o.GetSelectedFingerprintType();
    assert t' == t;
    o.SetSettingsFile(f);
    o.SetAddH(h);
    o.SetDebug(d);
    var d' := o.IsDebug();
    var h' := o.IsAddH();
    var f' := o.GetSettingsFile();
    assert d' == d && h' == h && f' == f;
  }

  /** Two requests for the instance yield the same object. */
  method InstanceIsShared(app: Application) returns (a: AppOptions, b: AppOptions)
    ensures a == b == app.ourInstance
  {
    a := app.GetInstance();
    b := app.GetInstance();
  }
}
