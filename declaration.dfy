/** The declaration API: `has_checksum` and `has_signature` on a class, the
    argument handling they share (`has_checksum_configure`), and the two
    `define_methods` variants, PORO and ActiveRecord. The class being declared
    on is a `ModelClass` whose method table and callback chain the
    declarations extend; the caller's options Hash is an `Options` object that
    the declarations update in place. */
module Declaration {
  import opened Values
  import opened Digests
  import opened Persistence

  /** Which private calculator the accessor dispatches to. */
  datatype Calculator = Checksum | Signature

  /** The contents of an options Hash; `None` is an absent (or nil) entry. */
  datatype OptionValues = OptionValues(
    algorithm: Option<Algorithm>,
    format: Option<string>,
    methodName: Option<string>,
    key: Option<KeySpec>)

  const NoOptions := OptionValues(None, None, None, None)

  /** A caller's options Hash. `has_checksum` and `has_signature` write
      `:algorithm` and `:method` into it, so a caller who passes the same
      Hash again sees those writes. */
  class Options {
    var algorithm: Option<Algorithm>
    var format: Option<string>
    var methodName: Option<string>
    var key: Option<KeySpec>

    constructor(given: OptionValues)
      ensures Snapshot() == given
    {
      algorithm, format, methodName, key := given.algorithm, given.format, given.methodName, given.key;
    }

    function Snapshot(): OptionValues
      reads this
    {
      OptionValues(algorithm, format, methodName, key)
    }
  }

  /** One argument of `has_checksum(*config)`: a column or method name, an
      options Hash, or an Array of further arguments. */
  datatype Arg = Field(name: string) | Opts(options: Options) | Nested(items: seq<Arg>)

  /** `Array#flatten`: nested arrays are spliced in, at any depth, in order. */
  function Flatten(args: seq<Arg>): (flat: seq<Arg>)
    ensures forall a :: a in flat ==> !a.Nested?
    decreases args
  {
    if args == [] then []
    else (if args[0].Nested? then Flatten(args[0].items) else [args[0]]) + Flatten(args[1..])
  }

  /** Flattening distributes over concatenation. */
  lemma {:induction false} FlattenAppend(a: seq<Arg>, b: seq<Arg>)
    ensures Flatten(a + b) == Flatten(a) + Flatten(b)
    decreases a
  {
    if a == [] {
      assert a + b == b;
    } else {
      assert (a + b)[0] == a[0] && (a + b)[1..] == a[1..] + b;
      FlattenAppend(a[1..], b);
    }
  }

  /** An Array argument is replaced by its own flattened elements. */
  lemma FlattenNested(items: seq<Arg>)
    ensures Flatten([Nested(items)]) == Flatten(items)
  {
    assert [Nested(items)][1..] == [];
    assert Flatten(items) + Flatten([]) == Flatten(items);
  }

  /** An argument list with no Array in it is already flat. */
  lemma {:induction false} FlattenOfFlat(args: seq<Arg>)
    requires forall a :: a in args ==> !a.Nested?
    ensures Flatten(args) == args
    decreases args
  {
    if args != [] {
      FlattenOfFlat(args[1..]);
    }
  }

  /** The name arguments `:a, :b, ...`. */
  function Fields(names: seq<string>): (args: seq<Arg>)
    ensures |args| == |names|
    ensures forall i :: 0 <= i < |names| ==> args[i] == Field(names[i])
  {
    if names == [] then [] else [Field(names[0])] + Fields(names[1..])
  }

  /** Name arguments contain no Array and no Hash. */
  lemma FieldsAreFlat(names: seq<string>)
    ensures forall a :: a in Fields(names) ==> a.Field? && !a.Nested?
    ensures FieldNames(Fields(names)) == Some(names)
  {
    var args := Fields(names);
    forall a | a in args
      ensures a.Field?
    {
      var i :| 0 <= i < |args| && args[i] == a;
    }
    assert FieldNames(args).value == names;
  }

  /** The options Hash popped from the end of the flattened arguments. */
  function Trailing(flat: seq<Arg>): Option<Options>
  {
    if flat != [] && flat[|flat| - 1].Opts? then Some(flat[|flat| - 1].options) else None
  }

  /** The arguments left once the trailing Hash is popped. */
  function Sources(flat: seq<Arg>): seq<Arg>
  {
    if Trailing(flat).Some? then flat[..|flat| - 1] else flat
  }

  /** The objects a declaration may write: the trailing options Hash. */
  function LastOptions(config: seq<Arg>): set<Options>
  {
    var t := Trailing(Flatten(config));
    if t.Some? then {t.value} else {}
  }

  /** The contents of the Hash the declaration works on: the trailing Hash,
      or a new empty one. */
  ghost function GivenOptions(flat: seq<Arg>): OptionValues
    reads if Trailing(flat).Some? then {Trailing(flat).value} else {}
  {
    if Trailing(flat).Some? then Trailing(flat).value.Snapshot() else NoOptions
  }

  /** The names of the source arguments, or `None` if a Hash is among them. */
  function FieldNames(args: seq<Arg>): (names: Option<seq<string>>)
    ensures names.Some? <==> forall i :: 0 <= i < |args| ==> args[i].Field?
    ensures names.Some? ==> |names.value| == |args|
    ensures names.Some? ==> forall i :: 0 <= i < |args| ==> args[i] == Field(names.value[i])
  {
    if args == [] then Some([])
    else if !args[0].Field? then None
    else
      match FieldNames(args[1..])
      case None => None
      case Some(rest) => Some([args[0].name] + rest)
  }

  /** `options[:algorithm] ||= "sha256"` */
  function DefaultAlgorithm(algorithm: Option<Algorithm>): Algorithm
  {
    if algorithm.Some? then algorithm.value else Name("sha256")
  }

  /** A declaration's source names with the options it has so far. */
  datatype Declared = Declared(source: seq<string>, options: OptionValues)

  /** `has_checksum_configure` on the flattened arguments `flat`, where
      `given` is the content of the trailing Hash (if any). */
  function ConfigureSpec(flat: seq<Arg>, given: OptionValues): (r: Result<Declared>)
    ensures r == Err(ConfigRequired) <==> flat == []
    ensures r == Err(NoColumns) <==> flat != [] && Sources(flat) == []
    ensures r.Ok? <==> flat != [] && Sources(flat) != [] && forall a :: a in Sources(flat) ==> a.Field?
    ensures r.Ok? ==> |r.value.source| == |Sources(flat)|
    ensures r.Ok? ==> forall i :: 0 <= i < |Sources(flat)| ==> Sources(flat)[i] == Field(r.value.source[i])
    ensures r.Ok? ==> r.value.options == given.(algorithm := Some(DefaultAlgorithm(given.algorithm)))
  {
    if flat == [] then Err(ConfigRequired)
    else if Sources(flat) == [] then Err(NoColumns)
    else
      match FieldNames(Sources(flat))
      case None => Err(NonNameSource)
      case Some(names) => Ok(Declared(names, given.(algorithm := Some(DefaultAlgorithm(given.algorithm)))))
  }

  /** The trailing Hash is the options and the names before it, in order,
      are the source. */
  lemma TrailingHashIsOptions(names: seq<string>, o: Options, given: OptionValues)
    requires names != []
    ensures ConfigureSpec(Flatten(Fields(names) + [Opts(o)]), given)
         == Ok(Declared(names, given.(algorithm := Some(DefaultAlgorithm(given.algorithm)))))
  {
    var args := Fields(names) + [Opts(o)];
    FieldsAreFlat(names);
    FlattenOfFlat(args);
    assert Sources(args) == Fields(names);
  }

  /** Names with no Hash after them are all source names, with the default
      options. */
  lemma NamesAloneAreSources(names: seq<string>, given: OptionValues)
    requires names != []
    ensures ConfigureSpec(Flatten(Fields(names)), given)
         == Ok(Declared(names, given.(algorithm := Some(DefaultAlgorithm(given.algorithm)))))
  {
    FieldsAreFlat(names);
    FlattenOfFlat(Fields(names));
    assert Fields(names)[|names| - 1].Field?;
    assert Sources(Fields(names)) == Fields(names);
  }

  /** Names wrapped in an Array are flattened out first. */
  lemma NestedNamesAreFlattened(names: seq<string>)
    requires names != []
    ensures ConfigureSpec(Flatten([Nested(Fields(names))]), NoOptions)
         == Ok(Declared(names, NoOptions.(algorithm := Some(Name("sha256")))))
  {
    FieldsAreFlat(names);
    FlattenOfFlat(Fields(names));
    var args := [Nested(Fields(names))];
    assert args[1..] == [];
    assert Flatten(args) == Fields(names) + Flatten([]);
    assert Fields(names) + [] == Fields(names);
  }

  /** A lone options Hash, even inside Arrays, names no column. */
  lemma OptionsAloneHaveNoColumns(o: Options, given: OptionValues)
    ensures ConfigureSpec(Flatten([Nested([Opts(o)])]), given) == Err(NoColumns)
  {
    var inner := [Opts(o)];
    assert inner[1..] == [];
    assert Flatten(inner) == [Opts(o)] + Flatten([]);
    var outer := [Nested(inner)];
    assert outer[1..] == [];
    assert Flatten(outer) == Flatten(inner) + Flatten([]);
  }

  /** The suffix of a default method name. */
  function Suffix(calculator: Calculator): string
  {
    if calculator == Checksum then "_checksum" else "_signature"
  }

  /** `"%s_checksum" % source.join("_")` and its signature twin. */
  function DefaultMethodName(calculator: Calculator, source: seq<string>): (name: string)
    ensures |source| == 1 ==> name == source[0] + Suffix(calculator)
  {
    var joined := Join(source, "_");
    assert |source| == 1 ==> joined == source[0];
    joined + Suffix(calculator)
  }

  /** Joining one more name adds the separator and the name at the end. */
  lemma {:induction false} JoinAppend(s: seq<string>, x: string, sep: string)
    requires s != []
    ensures Join(s + [x], sep) == Join(s, sep) + sep + x
    decreases |s|
  {
    var t := s + [x];
    assert t[0] == s[0] && t[1..] == s[1..] + [x];
    if |s| == 1 {
      assert t[1..] == [x];
    } else {
      JoinAppend(s[1..], x, sep);
      assert Join(t, sep) == s[0] + sep + (Join(s[1..], sep) + sep + x);
    }
  }

  /** The default name of any source list: one name gives that name with the
      suffix, and each further name is added after a "_", so the names appear
      in declared order joined with "_". */
  lemma DefaultMethodNames(calculator: Calculator, s: seq<string>, x: string)
    ensures DefaultMethodName(calculator, [x]) == x + Suffix(calculator)
    ensures s != [] ==> DefaultMethodName(calculator, s + [x])
                        == Join(s, "_") + "_" + x + Suffix(calculator)
  {
    if s != [] {
      JoinAppend(s, x, "_");
    }
  }

  /** Every default name ends in the calculator's suffix. */
  lemma DefaultMethodNameSuffix(calculator: Calculator, s: seq<string>)
    ensures var name := DefaultMethodName(calculator, s);
      |name| >= |Suffix(calculator)| && name[|name| - |Suffix(calculator)|..] == Suffix(calculator)
  {
    var joined := Join(s, "_");
    assert (joined + Suffix(calculator))[|joined|..] == Suffix(calculator);
  }

  /** The algorithm resolution the calculator calls for. */
  function Resolve(lib: Library, calculator: Calculator, alg: Algorithm): Result<Algorithm>
  {
    if calculator == Checksum then ResolveChecksumAlgorithm(lib, alg) else ResolveSignatureAlgorithm(lib, alg)
  }

  /** Options ready for `define_methods`: a method name, and an algorithm
      that is callable or resolved for the calculator (with a key for a
      signature). */
  predicate Ready(calculator: Calculator, d: Declared)
  {
    && d.options.methodName.Some?
    && d.options.algorithm.Some?
    && (calculator == Signature ==> d.options.key.Some?)
    && match d.options.algorithm.value
       case Callable(_) => true
       case DigestClass(_) => calculator == Checksum
       case OpenSSLDigest(_) => calculator == Signature
       case Name(_) => false
  }

  /** The part of `has_checksum` / `has_signature` after configuration and
      before `define_methods`: require a key for a signature, resolve a
      non-callable algorithm, and default the method name. */
  function CompleteSpec(lib: Library, calculator: Calculator, c: Declared): (r: Result<Declared>)
    requires c.options.algorithm.Some?
    ensures r.Ok? ==> Ready(calculator, r.value)
    ensures calculator == Signature && c.options.key.None? ==> r == Err(KeyRequired)
    ensures !(calculator == Signature && c.options.key.None?) ==>
      var resolved := Resolve(lib, calculator, c.options.algorithm.value);
      && (r.Ok? <==> resolved.Ok?)
      && (r.Ok? ==> r.value.options.algorithm == Some(resolved.value))
      && (r.Err? ==> r.error == resolved.error)
    ensures r.Ok? ==> r.value.source == c.source
    ensures r.Ok? ==> r.value.options.format == c.options.format && r.value.options.key == c.options.key
    ensures r.Ok? ==> r.value.options.methodName
                      == Some(if c.options.methodName.Some? then c.options.methodName.value
                              else DefaultMethodName(calculator, c.source))
  {
    if calculator == Signature && c.options.key.None? then Err(KeyRequired)
    else
      var resolved :- Resolve(lib, calculator, c.options.algorithm.value);
      var name := if c.options.methodName.Some? then c.options.methodName.value else DefaultMethodName(calculator, c.source);
      Ok(Declared(c.source, c.options.(algorithm := Some(resolved), methodName := Some(name))))
  }

  /** `has_checksum` / `has_signature` up to the call of `define_methods`. */
  function DeclareSpec(lib: Library, calculator: Calculator, flat: seq<Arg>, given: OptionValues): (r: Result<Declared>)
    ensures r.Ok? ==> Ready(calculator, r.value)
    ensures ConfigureSpec(flat, given).Err? ==> r == ConfigureSpec(flat, given)
    ensures ConfigureSpec(flat, given).Ok? && calculator == Signature && given.key.None? ==> r == Err(KeyRequired)
    ensures ConfigureSpec(flat, given).Ok? && !(calculator == Signature && given.key.None?) ==>
      var resolved := Resolve(lib, calculator, DefaultAlgorithm(given.algorithm));
      && (r.Ok? <==> resolved.Ok?)
      && (r.Ok? ==> r.value.options.algorithm == Some(resolved.value))
      && (r.Err? ==> r.error == resolved.error)
    ensures r.Ok? ==> r.value.source == ConfigureSpec(flat, given).value.source
    ensures r.Ok? ==> r.value.options.methodName
                      == Some(if given.methodName.Some? then given.methodName.value
                              else DefaultMethodName(calculator, r.value.source))
    ensures r.Ok? ==> r.value.options.format == given.format && r.value.options.key == given.key
  {
    var c :- ConfigureSpec(flat, given);
    CompleteSpec(lib, calculator, c)
  }

  /** A name the digest library does not know is refused when the class is
      declared, with the name in the error. */
  lemma UnknownAlgorithmRefused(lib: Library, calculator: Calculator, flat: seq<Arg>, given: OptionValues, name: string)
    requires ConfigureSpec(flat, given).Ok? && given.algorithm == Some(Name(name))
    requires calculator == Signature ==> given.key.Some?
    requires calculator == Checksum ==> !lib.digestConst(Upcase(name))
    requires calculator == Signature ==> !lib.opensslName(name)
    ensures DeclareSpec(lib, calculator, flat, given) == Err(UnknownAlgorithm(Name(name)))
  {
  }

  /** A checksum naming a constant the digest library has is declared, with
      the class of the upcased name as its algorithm. */
  lemma KnownChecksumNameDeclares(lib: Library, flat: seq<Arg>, given: OptionValues, name: string)
    requires ConfigureSpec(flat, given).Ok? && given.algorithm == Some(Name(name))
    requires lib.digestConst(Upcase(name))
    ensures DeclareSpec(lib, Checksum, flat, given).Ok?
    ensures DeclareSpec(lib, Checksum, flat, given).value.options.algorithm == Some(DigestClass(Upcase(name)))
  {
  }

  /** A signature with a key, naming a digest OpenSSL knows, is declared,
      with the OpenSSL digest of that name as its algorithm. */
  lemma KnownSignatureNameDeclares(lib: Library, flat: seq<Arg>, given: OptionValues, name: string)
    requires ConfigureSpec(flat, given).Ok? && given.algorithm == Some(Name(name)) && given.key.Some?
    requires lib.opensslName(name)
    ensures DeclareSpec(lib, Signature, flat, given).Ok?
    ensures DeclareSpec(lib, Signature, flat, given).value.options.algorithm == Some(OpenSSLDigest(name))
  {
  }

  /** What the options Hash holds once `has_checksum_configure` returns or
      raises: untouched if it raised before `||=`, with the default algorithm
      otherwise. */
  function ConfiguredOptions(flat: seq<Arg>, given: OptionValues): OptionValues
  {
    if flat == [] || Sources(flat) == [] then given
    else given.(algorithm := Some(DefaultAlgorithm(given.algorithm)))
  }

  /** What the options Hash holds once a declaration returns or raises: fully
      resolved on success, as configuration left it otherwise. */
  function OptionsAfter(lib: Library, calculator: Calculator, flat: seq<Arg>, given: OptionValues): OptionValues
  {
    match DeclareSpec(lib, calculator, flat, given)
    case Ok(d) => d.options
    case Err(_) => ConfiguredOptions(flat, given)
  }

  /** The accessor `define_methods` installs. */
  function AccessorOf(calculator: Calculator, d: Declared): (acc: Accessor)
    requires Ready(calculator, d)
    ensures acc.source == d.source
    ensures acc.Transform? <==> d.options.algorithm.value.Callable?
    ensures acc.Transform? ==> acc.transform == d.options.algorithm.value.call
    ensures acc.ChecksumOf? ==> calculator == Checksum && d.options.algorithm.value == DigestClass(acc.constant)
                                && acc.format == d.options.format
    ensures acc.SignatureOf? ==> calculator == Signature && d.options.algorithm.value == OpenSSLDigest(acc.digest)
                                 && acc.format == d.options.format && d.options.key == Some(acc.key)
  {
    match d.options.algorithm.value
    case Callable(f) => Transform(d.source, f)
    case DigestClass(constant) => ChecksumOf(d.source, constant, d.options.format)
    case OpenSSLDigest(digest) => SignatureOf(d.source, digest, d.options.format, d.options.key.value)
  }

  /** The hooks the ActiveRecord variant of `define_methods` adds: none unless
      the method name is a column. */
  function HooksOf(isRecord: bool, columns: set<string>, d: Declared): (hooks: seq<Hook>)
    requires d.options.methodName.Some? && d.options.algorithm.Some?
    ensures |hooks| <= 1
    ensures hooks != [] <==> isRecord && d.options.methodName.value in columns
    ensures hooks != [] ==> hooks[0].column == d.options.methodName.value
    ensures hooks != [] ==> hooks[0].watching == WatchSet(d.source, d.options.key, columns)
    ensures hooks != [] ==> hooks[0].recompute
                            == if d.options.algorithm.value.Callable?
                               then ApplyTransform(d.source, d.options.algorithm.value.call)
                               else SendAccessor
  {
    if isRecord && d.options.methodName.value in columns then
      var recompute := match d.options.algorithm.value
                       case Callable(f) => ApplyTransform(d.source, f)
                       case _ => SendAccessor;
      [Hook(d.options.methodName.value, WatchSet(d.source, d.options.key, columns), recompute)]
    else []
  }

  /** The hook a declaration registers writes what its accessor returns:
      a callable hook applies the callable to the digest input itself, and any
      other hook calls the accessor defined under the column's name. */
  lemma HookWritesAccessorValue(lib: Library, calculator: Calculator, columns: set<string>, d: Declared,
                                accessors: map<string, Accessor>, attrs: map<string, Value>)
    requires Ready(calculator, d) && d.options.methodName.value in columns
    requires d.options.methodName.value in accessors && accessors[d.options.methodName.value] == AccessorOf(calculator, d)
    ensures HookValue(lib, accessors, HooksOf(true, columns, d)[0], attrs) == Call(lib, AccessorOf(calculator, d), attrs)
  {
  }

  /** For a checksum declared with a name (or the default "sha256"), the
      accessor returns the library digest of the joined source values, in the
      selected format. */
  lemma ChecksumAccessorComputes(lib: Library, flat: seq<Arg>, given: OptionValues, readers: map<string, Value>)
    requires DeclareSpec(lib, Checksum, flat, given).Ok?
    requires !DefaultAlgorithm(given.algorithm).Callable?
    ensures var d := DeclareSpec(lib, Checksum, flat, given).value;
      && DefaultAlgorithm(given.algorithm).Name?
      && var input := DigestString(d.source, readers);
      Call(lib, AccessorOf(Checksum, d), readers)
        == if input.Err? then Err(input.error)
           else Ok(Encode(lib, ChecksumEncoding(given.format),
                          lib.digest(Upcase(DefaultAlgorithm(given.algorithm).name), input.value)))
  {
  }

  /** For a signature declared with a name, the accessor returns the HMAC of
      the joined source values under the key as resolved on this call. */
  lemma SignatureAccessorComputes(lib: Library, flat: seq<Arg>, given: OptionValues, readers: map<string, Value>)
    requires DeclareSpec(lib, Signature, flat, given).Ok?
    requires DefaultAlgorithm(given.algorithm).Name?
    ensures var d := DeclareSpec(lib, Signature, flat, given).value;
      var input := DigestString(d.source, readers);
      var key := ResolveKey(given.key.value, readers);
      Call(lib, AccessorOf(Signature, d), readers)
        == if input.Err? then Err(input.error)
           else if key.Err? then Err(key.error)
           else Ok(Encode(lib, SignatureEncoding(given.format),
                          lib.hmac(DefaultAlgorithm(given.algorithm).name, key.value, input.value)))
  {
  }

  /** A callable algorithm is applied to the joined source values as they
      are: neither the format nor the key takes part. */
  lemma CallableAccessorComputes(lib: Library, calculator: Calculator, flat: seq<Arg>, given: OptionValues,
                                 f: string -> string, readers: map<string, Value>)
    requires DeclareSpec(lib, calculator, flat, given).Ok?
    requires given.algorithm == Some(Callable(f))
    ensures var d := DeclareSpec(lib, calculator, flat, given).value;
      var input := DigestString(d.source, readers);
      Call(lib, AccessorOf(calculator, d), readers) == if input.Err? then Err(input.error) else Ok(f(input.value))
  {
  }

  /** A Ruby class that includes HasChecksum: its `define_method` table and,
      for an ActiveRecord model, its callback chain. */
  class ModelClass {
    /** `self < ::ActiveRecord::Base`, which selects the `define_methods` variant. */
    const isRecord: bool
    /** The names in `columns_hash`. */
    const columns: set<string>
    /** Accessors defined by the declarations, by method name. */
    var accessors: map<string, Accessor>
    /** The declarations' hook pairs, in registration order. */
    var hooks: seq<Hook>

    ghost predicate Valid()
      reads this
    {
      && (!isRecord ==> hooks == [])
      && forall k :: 0 <= k < |hooks| ==> hooks[k].column in columns && hooks[k].column in accessors
    }

    constructor(isRecord: bool, columns: set<string>)
      ensures Valid()
      ensures this.isRecord == isRecord && this.columns == columns
      ensures accessors == map[] && hooks == []
    {
      this.isRecord, this.columns := isRecord, columns;
      accessors, hooks := map[], [];
    }

    /** `has_checksum_configure`: flatten, refuse an empty list, pop a
        trailing Hash as the options (or start an empty one), refuse a list
        of options only, and default the algorithm in the Hash. */
    method Configure(config: seq<Arg>) returns (r: Result<(seq<string>, Options)>)
      modifies LastOptions(config)
      ensures var flat := Flatten(config);
        var spec := ConfigureSpec(flat, old(GivenOptions(flat)));
        && (spec.Err? ==> r == Err(spec.error))
        && (spec.Ok? ==> r.Ok? && r.value.0 == spec.value.source && r.value.1.Snapshot() == spec.value.options)
        && (r.Ok? && Trailing(flat).Some? ==> r.value.1 == Trailing(flat).value)
        && (r.Ok? && Trailing(flat).None? ==> fresh(r.value.1))
        && (Trailing(flat).Some? ==> Trailing(flat).value.Snapshot() == ConfiguredOptions(flat, old(GivenOptions(flat))))
    {
      var args := Flatten(config);
      if args == [] {
        return Err(ConfigRequired);
      }
      var options: Options;
      if args[|args| - 1].Opts? {
        options := args[|args| - 1].options;
        args := args[..|args| - 1];
      } else {
        options := new Options(NoOptions);
      }
      if args == [] {
        return Err(NoColumns);
      }
      if options.algorithm.None? {
        options.algorithm := Some(Name("sha256"));
      }
      var names := FieldNames(args);
      if names.None? {
        return Err(NonNameSource);
      }
      r := Ok((names.value, options));
    }

    /** `has_checksum` */
    method HasChecksum(lib: Library, config: seq<Arg>) returns (r: Outcome)
      requires Valid()
      modifies this, LastOptions(config)
      ensures Valid()
      ensures var flat := Flatten(config);
        var given := old(GivenOptions(flat));
        var spec := DeclareSpec(lib, Checksum, flat, given);
        && (spec.Err? ==> r == Fail(spec.error) && accessors == old(accessors) && hooks == old(hooks))
        && (spec.Ok? ==> r == Pass)
        && (spec.Ok? ==> accessors == old(accessors)[spec.value.options.methodName.value := AccessorOf(Checksum, spec.value)])
        && (spec.Ok? ==> hooks == old(hooks) + HooksOf(isRecord, columns, spec.value))
        && (Trailing(flat).Some? ==> Trailing(flat).value.Snapshot() == OptionsAfter(lib, Checksum, flat, given))
    {
      r := Declare(lib, Checksum, config);
    }

    /** `has_signature` */
    method HasSignature(lib: Library, config: seq<Arg>) returns (r: Outcome)
      requires Valid()
      modifies this, LastOptions(config)
      ensures Valid()
      ensures var flat := Flatten(config);
        var given := old(GivenOptions(flat));
        var spec := DeclareSpec(lib, Signature, flat, given);
        && (spec.Err? ==> r == Fail(spec.error) && accessors == old(accessors) && hooks == old(hooks))
        && (spec.Ok? ==> r == Pass)
        && (spec.Ok? ==> accessors == old(accessors)[spec.value.options.methodName.value := AccessorOf(Signature, spec.value)])
        && (spec.Ok? ==> hooks == old(hooks) + HooksOf(isRecord, columns, spec.value))
        && (Trailing(flat).Some? ==> Trailing(flat).value.Snapshot() == OptionsAfter(lib, Signature, flat, given))
    {
      r := Declare(lib, Signature, config);
    }

    /** The body `has_checksum` and `has_signature` share; they differ in the
        key check, the algorithm resolution and the method-name suffix. */
    method Declare(lib: Library, calculator: Calculator, config: seq<Arg>) returns (r: Outcome)
      requires Valid()
      modifies this, LastOptions(config)
      ensures Valid()
      ensures var flat := Flatten(config);
        var given := old(GivenOptions(flat));
        var spec := DeclareSpec(lib, calculator, flat, given);
        && (spec.Err? ==> r == Fail(spec.error) && accessors == old(accessors) && hooks == old(hooks))
        && (spec.Ok? ==> r == Pass)
        && (spec.Ok? ==> accessors == old(accessors)[spec.value.options.methodName.value := AccessorOf(calculator, spec.value)])
        && (spec.Ok? ==> hooks == old(hooks) + HooksOf(isRecord, columns, spec.value))
        && (Trailing(flat).Some? ==> Trailing(flat).value.Snapshot() == OptionsAfter(lib, calculator, flat, given))
    {
      var c := Configure(config);
      if c.Err? {
        return Fail(c.error);
      }
      var (source, options) := c.value;
      r := Complete(lib, calculator, source, options);
    }

    /** From the key check to `define_methods`, on configured options. */
    method Complete(lib: Library, calculator: Calculator, source: seq<string>, options: Options) returns (r: Outcome)
      requires Valid() && options.algorithm.Some?
      modifies this, options
      ensures Valid()
      ensures var spec := CompleteSpec(lib, calculator, Declared(source, old(options.Snapshot())));
        && (spec.Err? ==> r == Fail(spec.error) && accessors == old(accessors) && hooks == old(hooks))
        && (spec.Err? ==> options.Snapshot() == old(options.Snapshot()))
        && (spec.Ok? ==> r == Pass && options.Snapshot() == spec.value.options)
        && (spec.Ok? ==> accessors == old(accessors)[spec.value.options.methodName.value := AccessorOf(calculator, spec.value)])
        && (spec.Ok? ==> hooks == old(hooks) + HooksOf(isRecord, columns, spec.value))
    {
      if calculator == Signature && options.key.None? {
        return Fail(KeyRequired);
      }
      var algorithm := options.algorithm.value;
      if !algorithm.Callable? {
        var resolved := Resolve(lib, calculator, algorithm);
        if resolved.Err? {
          return Fail(resolved.error);
        }
        options.algorithm := Some(resolved.value);
      }
      if options.methodName.None? {
        options.methodName := Some(DefaultMethodName(calculator, source));
      }
      if isRecord {
        RecordDefineMethods(calculator, source, options);
      } else {
        PoroDefineMethods(calculator, source, options);
      }
      r := Pass;
    }

    /** `PORO#define_methods`: define (or redefine) the accessor. */
    method PoroDefineMethods(calculator: Calculator, source: seq<string>, options: Options)
      requires Valid() && !isRecord
      requires Ready(calculator, Declared(source, options.Snapshot()))
      modifies this
      ensures Valid()
      ensures accessors == old(accessors)[options.methodName.value := AccessorOf(calculator, Declared(source, options.Snapshot()))]
      ensures hooks == old(hooks)
    {
      accessors := accessors[options.methodName.value := AccessorOf(calculator, Declared(source, options.Snapshot()))];
    }

    /** `ActiveRecord#define_methods`: define (or redefine) the accessor and,
        when the method name is a column, register the hook pair that keeps
        the column up to date. */
    method RecordDefineMethods(calculator: Calculator, source: seq<string>, options: Options)
      requires Valid() && isRecord
      requires Ready(calculator, Declared(source, options.Snapshot()))
      modifies this
      ensures Valid()
      ensures accessors == old(accessors)[options.methodName.value := AccessorOf(calculator, Declared(source, options.Snapshot()))]
      ensures hooks == old(hooks) + HooksOf(isRecord, columns, Declared(source, options.Snapshot()))
    {
      var name := options.methodName.value;
      accessors := accessors[name := AccessorOf(calculator, Declared(source, options.Snapshot()))];
      if name !in columns {
        return;
      }
      var watching := WatchSet(source, options.key, columns);
      var recompute := match options.algorithm.value
                       case Callable(f) => ApplyTransform(source, f)
                       case _ => SendAccessor;
      hooks := hooks + [Hook(name, watching, recompute)];
    }
  }
}
