/** An instance of an ActiveRecord model that declared stored digests, with
    just enough of ActiveRecord to run the hooks: the attributes in memory,
    the stored row, the set of changed attribute names, and a save that
    inserts or updates. */
module Records {
  import opened Values
  import opened Digests
  import opened Persistence
  import opened Declaration

  class Record {
    /** The model class, with its accessors and hooks. */
    const model: ModelClass
    /** What each reader of the instance returns now: its attributes and
        any other public reader. */
    var attrs: map<string, Value>
    /** The stored row. */
    var row: map<string, Value>
    /** `changed_attributes.keys` */
    var changed: set<string>
    /** Whether the row has been inserted. */
    var persisted: bool

    /** `Model.new(attributes)`: every column reader exists and returns nil
        unless an attribute is given for it; a given attribute counts as
        changed unless it is nil. */
    constructor(model: ModelClass, given: map<string, Value>)
      ensures this.model == model
      ensures forall n :: n in model.columns || n in given <==> n in attrs
      ensures forall n :: n in given ==> attrs[n] == given[n]
      ensures forall n :: n in model.columns && n !in given ==> attrs[n] == Nil
      ensures forall n :: n in changed <==> n in given && given[n] != Nil
      ensures row == map[] && !persisted
    {
      this.model := model;
      attrs := (map c | c in model.columns :: Nil) + given;
      row, changed, persisted := map[], (set n | n in given && given[n] != Nil), false;
    }

    /** An attribute writer: the attribute is changed unless it is set back
        to its stored value. */
    method Assign(name: string, v: Value)
      modifies this
      ensures attrs == old(attrs)[name := v]
      ensures changed == if name in row && row[name] == v then old(changed) - {name} else old(changed) + {name}
      ensures row == old(row) && persisted == old(persisted)
    {
      attrs := attrs[name := v];
      if name in row && row[name] == v {
        changed := changed - {name};
      } else {
        changed := changed + {name};
      }
    }

    /** Calling a method by name on the instance: a generated accessor
        computes from the current attributes (it takes the place of the
        column reader of the same name); any other reader returns its value. */
    function Read(lib: Library, name: string): (r: Result<string>)
      reads this, model
      ensures name in model.accessors ==> r == Call(lib, model.accessors[name], attrs)
      ensures name !in model.accessors ==> (r.Ok? <==> name in attrs)
      ensures name !in model.accessors && name in attrs ==> r == Ok(ToS(attrs[name]))
    {
      if name in model.accessors then Call(lib, model.accessors[name], attrs)
      else if name in attrs then Ok(ToS(attrs[name]))
      else Err(NoMethod(name))
    }

    /** `update_column`: writes the attribute and the stored row directly,
        without callbacks. */
    method UpdateColumn(name: string, v: string)
      modifies this
      ensures attrs == old(attrs)[name := Str(v)] && row == old(row)[name := Str(v)]
      ensures changed == old(changed) - {name} && persisted == old(persisted)
    {
      attrs := attrs[name := Str(v)];
      row := row[name := Str(v)];
      changed := changed - {name};
    }

    /** `save`: an insert for a new record, an update otherwise. A hook
        that raises ends the save with that error. */
    method Save(lib: Library) returns (r: Outcome)
      requires model.Valid()
      modifies this
      ensures persisted && changed == {} && row == attrs
      ensures !old(persisted) ==>
        Run(r, attrs) == CreateRun(lib, model.accessors, model.hooks, old(attrs))
      ensures old(persisted) ==>
        Run(r, attrs) == UpdateRun(lib, model.accessors, model.hooks, old(changed), old(attrs))
    {
      if persisted {
        r := AroundUpdate(lib, 0);
      } else {
        r := Create(lib);
      }
    }

    /** The insert, then the `after_create` hooks in registration order, each
        writing its column from the state the earlier ones left. */
    method Create(lib: Library) returns (r: Outcome)
      requires !persisted
      modifies this
      ensures persisted && changed == {} && row == attrs
      ensures Run(r, attrs) == CreateRun(lib, model.accessors, model.hooks, old(attrs))
    {
      row, changed, persisted := attrs, {}, true;
      var hooks := model.hooks;
      var i := 0;
      while i < |hooks|
        invariant 0 <= i <= |hooks|
        invariant persisted && changed == {} && row == attrs
        invariant CreateRun(lib, model.accessors, hooks[i..], attrs)
               == CreateRun(lib, model.accessors, hooks, old(attrs))
      {
        var v := HookValue(lib, model.accessors, hooks[i], attrs);
        if v.Err? {
          return Fail(v.error);
        }
        assert hooks[i..][1..] == hooks[i + 1..];
        UpdateColumn(hooks[i].column, v.value);
        i := i + 1;
      }
      r := Pass;
    }

    /** The `around_update` hooks from the `i`-th inward, wrapped around the
        write. Each hook tests its watch set against the changed attributes
        before it yields, and recomputes its column after the inner part
        returns, from the state that part left. */
    method AroundUpdate(lib: Library, i: nat) returns (r: Outcome)
      requires persisted && i <= |model.hooks|
      modifies this
      decreases |model.hooks| - i
      ensures persisted && changed == {} && row == attrs
      ensures Run(r, attrs) == UpdateRun(lib, model.accessors, model.hooks[i..], old(changed), old(attrs))
    {
      if i == |model.hooks| {
        // the write itself: the row takes the attributes and the changes are applied
        row, changed := attrs, {};
        return Pass;
      }
      var hook := model.hooks[i];
      assert model.hooks[i..][0] == hook && model.hooks[i..][1..] == model.hooks[i + 1..];
      var watchedChanged := Intersects(hook.watching, changed);
      r := AroundUpdate(lib, i + 1);
      if r.Fail? || !watchedChanged {
        return;
      }
      var v := HookValue(lib, model.accessors, hook, attrs);
      if v.Err? {
        return Fail(v.error);
      }
      UpdateColumn(hook.column, v.value);
    }
  }

  /** In a model built by the declarations, every hook that calls the
      accessor by name finds it: `define_methods` defines the accessor before
      it registers the hooks, so a hook never raises for a missing accessor
      of its own column. */
  lemma HooksFindTheirAccessor(lib: Library, model: ModelClass, attrs: map<string, Value>, k: nat)
    requires model.Valid() && k < |model.hooks| && model.hooks[k].recompute.SendAccessor?
    ensures model.hooks[k].column in model.accessors
    ensures HookValue(lib, model.accessors, model.hooks[k], attrs)
         == Call(lib, model.accessors[model.hooks[k].column], attrs)
  {
  }

  /** A hook that calls the accessor by name computes what reading that
      column on the record returns right now: the generated accessor, which
      takes the place of the column reader. */
  lemma HookWritesWhatReadReturns(lib: Library, rec: Record, k: nat)
    requires rec.model.Valid() && k < |rec.model.hooks| && rec.model.hooks[k].recompute.SendAccessor?
    ensures HookValue(lib, rec.model.accessors, rec.model.hooks[k], rec.attrs) == rec.Read(lib, rec.model.hooks[k].column)
  {
    HooksFindTheirAccessor(lib, rec.model, rec.attrs, k);
  }
}
