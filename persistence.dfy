/** The persistence rule of `ActiveRecord#define_methods`: which attributes a
    stored digest watches, the `after_create` hook that writes it, and the
    `around_update` hook that rewrites it when a watched attribute changed.
    A record's attributes are a map from name to value; `update_column` is a
    direct write into that map (and into the stored row, see Records). */
module Persistence {
  import opened Values
  import opened Digests

  /** How a hook recomputes the column: a callable algorithm is applied to
      the digest input directly; otherwise the accessor is called by name
      (`public_send(options[:method])`), whatever is defined under that name
      when the hook runs. */
  datatype Recompute =
    | ApplyTransform(source: seq<string>, transform: string -> string)
    | SendAccessor

  /** One declaration's pair of hooks (`after_create` and `around_update`),
      always registered together for the column named by the accessor. */
  datatype Hook = Hook(column: string, watching: seq<string>, recompute: Recompute)

  /** The watch set: the source names, then the key name when the key is a
      Symbol that names a column. */
  function WatchSet(source: seq<string>, key: Option<KeySpec>, columns: set<string>): (watching: seq<string>)
    ensures |watching| >= |source| && watching[..|source|] == source
    ensures forall n :: n in watching <==>
      n in source || (key.Some? && key.value.KeyMethod? && key.value.name == n && n in columns)
  {
    source + (if key.Some? && key.value.KeyMethod? && key.value.name in columns then [key.value.name] else [])
  }

  /** `(watching & changed_attributes.keys).any?` */
  predicate Intersects(watching: seq<string>, changed: set<string>)
    ensures Intersects(watching, changed) <==> exists n :: n in watching && n in changed
    decreases |watching|
  {
    watching != [] && (watching[0] in changed || Intersects(watching[1..], changed))
  }

  /** The value a hook writes, computed from the record's current attributes. */
  function HookValue(lib: Library, accessors: map<string, Accessor>, h: Hook, attrs: map<string, Value>): (r: Result<string>)
    ensures h.recompute.SendAccessor? && h.column in accessors ==> r == Call(lib, accessors[h.column], attrs)
    ensures h.recompute.ApplyTransform? ==>
      r == Call(lib, Transform(h.recompute.source, h.recompute.transform), attrs)
  {
    match h.recompute
    case ApplyTransform(source, f) =>
      var input :- DigestString(source, attrs);
      Ok(f(input))
    case SendAccessor =>
      if h.column in accessors then Call(lib, accessors[h.column], attrs) else Err(NoMethod(h.column))
  }

  /** The columns a list of hooks writes. */
  function Columns(hooks: seq<Hook>): (cols: set<string>)
    ensures forall k :: 0 <= k < |hooks| ==> hooks[k].column in cols
    ensures forall n :: n in cols ==> exists k :: 0 <= k < |hooks| && hooks[k].column == n
  {
    set k | 0 <= k < |hooks| :: hooks[k].column
  }

  /** Where a run of hooks ended: raised or not, and the attributes then. */
  datatype Run = Run(outcome: Outcome, attrs: map<string, Value>)

  function Lookup(m: map<string, Value>, name: string): Option<Value>
  {
    if name in m then Some(m[name]) else None
  }

  /** The `after_create` chain, run in registration order right after the
      insert: each hook writes its column; the first hook that raises stops
      the chain. */
  function CreateRun(lib: Library, accessors: map<string, Accessor>, hooks: seq<Hook>, attrs: map<string, Value>): (r: Run)
    ensures forall n :: n !in Columns(hooks) ==> Lookup(r.attrs, n) == Lookup(attrs, n)
    ensures r.outcome.Pass? ==> forall k :: 0 <= k < |hooks| ==> hooks[k].column in r.attrs && r.attrs[hooks[k].column].Str?
    decreases |hooks|
  {
    if hooks == [] then Run(Pass, attrs)
    else
      match HookValue(lib, accessors, hooks[0], attrs)
      case Err(e) => Run(Fail(e), attrs)
      case Ok(v) =>
        var rest := CreateRun(lib, accessors, hooks[1..], attrs[hooks[0].column := Str(v)]);
        assert forall k :: 1 <= k < |hooks| ==> hooks[k] == hooks[1..][k - 1];
        assert hooks[0].column !in Columns(hooks[1..]) ==> Lookup(rest.attrs, hooks[0].column) == Some(Str(v));
        rest
  }

  /** The `around_update` chain. The first registered hook is the outermost:
      it tests its watch set against `changed` (the attributes changed by this
      update, as they stand before the write), lets the inner hooks and the
      write run, and afterwards, if the test succeeded, rewrites its column
      from the state the inner part left. The write itself stores the
      attributes as they are. */
  function UpdateRun(lib: Library, accessors: map<string, Accessor>, hooks: seq<Hook>,
                     changed: set<string>, attrs: map<string, Value>): (r: Run)
    ensures forall n :: n !in Columns(hooks) ==> Lookup(r.attrs, n) == Lookup(attrs, n)
    decreases |hooks|
  {
    if hooks == [] then Run(Pass, attrs)
    else
      var inner := UpdateRun(lib, accessors, hooks[1..], changed, attrs);
      if inner.outcome.Fail? || !Intersects(hooks[0].watching, changed) then inner
      else
        match HookValue(lib, accessors, hooks[0], inner.attrs)
        case Err(e) => Run(Fail(e), inner.attrs)
        case Ok(v) => Run(Pass, inner.attrs[hooks[0].column := Str(v)])
  }

  /** Running a chain in two pieces is running it whole. */
  lemma {:induction false} CreateRunAppend(lib: Library, accessors: map<string, Accessor>, first: seq<Hook>,
                                           rest: seq<Hook>, attrs: map<string, Value>)
    ensures var mid := CreateRun(lib, accessors, first, attrs);
      CreateRun(lib, accessors, first + rest, attrs)
        == if mid.outcome.Fail? then mid else CreateRun(lib, accessors, rest, mid.attrs)
    decreases |first|
  {
    if first == [] {
      assert first + rest == rest;
    } else {
      assert (first + rest)[0] == first[0] && (first + rest)[1..] == first[1..] + rest;
      var v := HookValue(lib, accessors, first[0], attrs);
      if v.Ok? {
        CreateRunAppend(lib, accessors, first[1..], rest, attrs[first[0].column := Str(v.value)]);
      }
    }
  }

  /** After create, the column of a declaration holds the value its hook
      computed, when no later hook writes the same column: the state the hook
      saw is the one the earlier hooks left after the insert. */
  lemma CreateWritesColumn(lib: Library, accessors: map<string, Accessor>, hooks: seq<Hook>,
                           attrs: map<string, Value>, j: nat)
    requires j < |hooks|
    requires forall k :: j < k < |hooks| ==> hooks[k].column != hooks[j].column
    requires CreateRun(lib, accessors, hooks, attrs).outcome.Pass?
    ensures var before := CreateRun(lib, accessors, hooks[..j], attrs);
      && before.outcome.Pass?
      && HookValue(lib, accessors, hooks[j], before.attrs).Ok?
      && Lookup(CreateRun(lib, accessors, hooks, attrs).attrs, hooks[j].column)
         == Some(Str(HookValue(lib, accessors, hooks[j], before.attrs).value))
  {
    var before := CreateRun(lib, accessors, hooks[..j], attrs);
    assert hooks == hooks[..j] + hooks[j..];
    CreateRunAppend(lib, accessors, hooks[..j], hooks[j..], attrs);
    var v := HookValue(lib, accessors, hooks[j], before.attrs);
    var tail := hooks[j..];
    assert tail[0] == hooks[j] && tail[1..] == hooks[j + 1..];
    var written := before.attrs[hooks[j].column := Str(v.value)];
    var later := hooks[j + 1..];
    assert hooks[j].column !in Columns(later) by {
      forall k | 0 <= k < |later|
        ensures later[k].column != hooks[j].column
      {
        assert later[k] == hooks[j + 1 + k];
      }
    }
  }

  /** An update that changed nothing a hook of this column watches leaves
      the column as it was before the update. */
  lemma {:induction false} UpdateKeepsUnwatchedColumn(lib: Library, accessors: map<string, Accessor>, hooks: seq<Hook>,
                                                      changed: set<string>, attrs: map<string, Value>, column: string)
    requires forall k :: 0 <= k < |hooks| && hooks[k].column == column ==> !Intersects(hooks[k].watching, changed)
    ensures Lookup(UpdateRun(lib, accessors, hooks, changed, attrs).attrs, column) == Lookup(attrs, column)
    decreases |hooks|
  {
    if hooks != [] {
      UpdateKeepsUnwatchedColumn(lib, accessors, hooks[1..], changed, attrs, column);
    }
  }

  /** An update that changed nothing any hook watches writes no column and
      cannot raise. */
  lemma {:induction false} UpdateQuietIsWriteOnly(lib: Library, accessors: map<string, Accessor>, hooks: seq<Hook>,
                                                  changed: set<string>, attrs: map<string, Value>)
    requires forall k :: 0 <= k < |hooks| ==> !Intersects(hooks[k].watching, changed)
    ensures UpdateRun(lib, accessors, hooks, changed, attrs) == Run(Pass, attrs)
    decreases |hooks|
  {
    if hooks != [] {
      UpdateQuietIsWriteOnly(lib, accessors, hooks[1..], changed, attrs);
    }
  }

  /** An update that changed something hook `j` watches rewrites its column,
      when no outer hook of the same column is triggered too. The value is
      computed from the state after the write (and after the inner hooks). */
  lemma {:induction false} UpdateRewritesWatchedColumn(lib: Library, accessors: map<string, Accessor>, hooks: seq<Hook>,
                                                       changed: set<string>, attrs: map<string, Value>, j: nat)
    requires j < |hooks| && Intersects(hooks[j].watching, changed)
    requires forall k :: 0 <= k < j && hooks[k].column == hooks[j].column ==> !Intersects(hooks[k].watching, changed)
    requires UpdateRun(lib, accessors, hooks, changed, attrs).outcome.Pass?
    ensures var inner := UpdateRun(lib, accessors, hooks[j + 1..], changed, attrs);
      && inner.outcome.Pass?
      && HookValue(lib, accessors, hooks[j], inner.attrs).Ok?
      && Lookup(UpdateRun(lib, accessors, hooks, changed, attrs).attrs, hooks[j].column)
         == Some(Str(HookValue(lib, accessors, hooks[j], inner.attrs).value))
    decreases j
  {
    if j > 0 {
      var tail := hooks[1..];
      assert tail[j - 1] == hooks[j] && tail[j..] == hooks[j + 1..];
      forall k | 0 <= k < j - 1 && tail[k].column == tail[j - 1].column
        ensures !Intersects(tail[k].watching, changed)
      {
        assert tail[k] == hooks[k + 1];
      }
      UpdateRewritesWatchedColumn(lib, accessors, tail, changed, attrs, j - 1);
    }
  }
}
