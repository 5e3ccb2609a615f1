/**
 * The settings store of a plugin script: the deep merge `merge`, and the
 * shared manifest whose `settings` object `updateSettings` and
 * `loadSettings` replace with merged values.
 */
module SettingsStore {
  import opened JsValue

  /** `target[key] || {}` for a slot already known to be object-typed. */
  function OrEmpty(v: Value): (r: Value)
    requires IsObjectTyped(v)
    ensures IsContainer(r)
    ensures v.Null? ==> r.Obj? && Props(r) == map[]
    ensures !v.Null? ==> r == v
  {
    if v.Null? then EmptyObject else v
  }

  /**
   * The value `merge(target, source)` leaves in `target`. For every key the
   * source enumerates: when the target's current property and the source's
   * value are both object-typed, the property becomes the merge of the
   * source's value into that property (or into `{}` when it is null);
   * otherwise the source's value overwrites it. Keys the source does not
   * enumerate keep their values.
   */
  function Merged(target: Value, source: Value): (r: Value)
    requires IsContainer(target)
    ensures IsContainer(r) && r.Obj? == target.Obj?
    ensures Props(r).Keys == Props(target).Keys + Entries(source).Keys
    ensures forall k :: k in Props(target) && k !in Entries(source) ==> Props(r)[k] == Props(target)[k]
    ensures forall k :: k in Entries(source) && !IsObjectTyped(Entries(source)[k]) ==>
              Props(r)[k] == Entries(source)[k]
    decreases source
  {
    var src := Entries(source);
    var tp := Props(target);
    WithProps(target, map k | k in tp.Keys + src.Keys ::
      if k !in src then tp[k]
      else if k in tp && IsObjectTyped(tp[k]) && IsObjectTyped(src[k]) then Merged(OrEmpty(tp[k]), src[k])
      else src[k])
  }

  /** The property of the merge at a key the source enumerates. */
  lemma MergedAt(target: Value, source: Value, k: string)
    requires IsContainer(target) && k in Entries(source)
    ensures var tp, src := Props(target), Entries(source);
      Props(Merged(target, source))[k] ==
        if k in tp && IsObjectTyped(tp[k]) && IsObjectTyped(src[k]) then Merged(OrEmpty(tp[k]), src[k])
        else src[k]
  {
  }

  /**
   * Part way through the loop of `merge`, on the properties: the keys in
   * `done` hold the values `want` gives them and every other property of
   * the target `tp` is untouched.
   */
  ghost predicate WrittenSoFar(tp: map<string, Value>, want: map<string, Value>,
                               props: map<string, Value>, done: set<string>)
  {
    && done <= want.Keys
    && props.Keys == tp.Keys + done
    && (forall k :: k in done ==> props[k] == want[k])
    && (forall k :: k in tp && k !in done ==> props[k] == tp[k])
  }

  /** One iteration of the loop of `merge` writes the wanted value of one more key. */
  lemma WrittenSoFarStep(tp: map<string, Value>, want: map<string, Value>,
                         props: map<string, Value>, done: set<string>, key: string)
    requires WrittenSoFar(tp, want, props, done) && key in want && key !in done
    ensures WrittenSoFar(tp, want, props[key := want[key]], done + {key})
  {
  }

  /** When every key of the source is done, the loop has built the merge. */
  lemma WrittenSoFarDone(target: Value, source: Value, result: Value)
    requires IsContainer(target) && IsContainer(result) && result.Obj? == target.Obj?
    requires WrittenSoFar(Props(target), Props(Merged(target, source)), Props(result), Entries(source).Keys)
    ensures result == Merged(target, source)
  {
    var merged := Merged(target, source);
    assert Props(result) == Props(merged);
    ContainerExtensionality(result, merged);
  }

  /**
   * The `for…in` loop of `merge`: each key of the source is visited once and
   * the target's property is overwritten or merged into, recursively.
   */
  method Merge(target: Value, source: Value) returns (result: Value)
    requires IsContainer(target)
    ensures result == Merged(target, source)
    decreases source, 1
  {
    var src := Entries(source);
    result := target;
    var pending := src.Keys;
    ghost var done: set<string> := {};
    ghost var want := Props(Merged(target, source));
    while pending != {}
      invariant pending + done == src.Keys && pending !! done
      invariant IsContainer(result) && result.Obj? == target.Obj?
      invariant WrittenSoFar(Props(target), want, Props(result), done)
      decreases pending
    {
      var key :| key in pending;
      var value := MergeProperty(target, source, result, key);
      WrittenSoFarStep(Props(target), want, Props(result), done, key);
      result := WithProps(result, Props(result)[key := value]);
      pending := pending - {key};
      done := done + {key};
    }
    WrittenSoFarDone(target, source, result);
  }

  /**
   * The body of the loop of `merge` for one key: two object-typed values
   * are merged recursively (a null target value counting as `{}`);
   * otherwise the source's value is taken.
   */
  method MergeProperty(target: Value, source: Value, current: Value, key: string) returns (value: Value)
    requires IsContainer(target) && IsContainer(current) && key in Entries(source)
    requires key in Props(current) <==> key in Props(target)
    requires key in Props(current) ==> Props(current)[key] == Props(target)[key]
    ensures value == Props(Merged(target, source))[key]
    decreases source, 0
  {
    var src, props := Entries(source), Props(current);
    MergedAt(target, source, key);
    if key in props && IsObjectTyped(props[key]) && IsObjectTyped(src[key]) {
      value := Merge(OrEmpty(props[key]), src[key]);
    } else {
      value := src[key];
    }
  }

  /** The settings `loadSettings(defaults, user)` leaves behind. */
  function LoadedSettings(defaults: Value, user: Value): (r: map<string, Value>)
    ensures r.Keys == Entries(defaults).Keys + Entries(user).Keys
  {
    Props(Merged(Merged(EmptyObject, defaults), user))
  }

  /** The reply of `updateSettings`. */
  const SettingsUpdated: Value := Obj(map["message" := Str("Settings updated!")])

  /**
   * The plugin's manifest record. Only `settings` is ever reassigned; the
   * other manifest entries (dependencies, widgets, hooks) are serialised
   * for the host and are not part of this model.
   */
  class Plugin {
    var name: string
    var version: string
    var settings: map<string, Value>

    constructor (name: string, version: string, settings: map<string, Value>)
      ensures this.name == name && this.version == version && this.settings == settings
    {
      this.name := name;
      this.version := version;
      this.settings := settings;
    }

    /** `pluginName()`. */
    function PluginName(): string
      reads this
    {
      name
    }

    /** `pluginVersion()`. */
    function PluginVersion(): string
      reads this
    {
      version
    }

    method UpdateSettings(patch: Value) returns (reply: Value)
      modifies this`settings
      ensures settings == Props(Merged(Obj(old(settings)), patch))
      ensures reply == SettingsUpdated
      ensures PluginName() == old(PluginName()) && PluginVersion() == old(PluginVersion())
    {
      var merged := Merge(Obj(settings), patch);
      settings := merged.fields;
      reply := SettingsUpdated;
    }

    method LoadSettings(defaults: Value, user: Value)
      modifies this`settings
      ensures settings == LoadedSettings(defaults, user)
      ensures PluginName() == old(PluginName()) && PluginVersion() == old(PluginVersion())
    {
      settings := map[];
      var _ := UpdateSettings(defaults);
      var _ := UpdateSettings(user);
    }
  }
}
