# has_checksum in Dafny

A model of the Ruby library `has_checksum`. A class that includes `HasChecksum`
declares digests of its own fields:

- `has_checksum :username` gives it an accessor `username_checksum`. The accessor
  returns the SHA256 of the username (or of several fields concatenated), in hex
  by default.
- `has_signature :username, :key => …` gives it an HMAC instead.

On an ActiveRecord model whose table has a column of the accessor's name, the
declaration also registers two hooks:

- an `after_create` hook that writes the digest into the column;
- an `around_update` hook that rewrites it after an update that changed one of
  the watched attributes. The watched attributes are the source fields, plus
  the key when the key names a column.

The project has six modules:

- `Values` (`values.dfy`): shared vocabulary.
  - Ruby values as `to_s` renders them, and the library's error conditions.
  - The cryptographic library, as a `Library` value of uninterpreted
    functions: which names `Digest.const_get` and `OpenSSL::Digest.new` accept,
    the raw digest and HMAC, and the hex, base64 and bubblebabble encoders.
- `Digests` (`digests.dfy`): what a generated accessor computes.
  - `digest_string`, `calculate_checksum` and `calculate_signature`.
  - The algorithm resolution of the two declarations.
- `Persistence` (`persistence.dfy`): the hooks of the ActiveRecord variant.
  - The watch set.
  - The `after_create` chain and the nested `around_update` chain, as
    functions of the record's attributes.
- `Declaration` (`declaration.dfy`): the declarations themselves.
  - `has_checksum`, `has_signature` and `has_checksum_configure`.
  - The two `define_methods` variants.
  - The class declared on is a `ModelClass` object whose accessor table and
    hook list the declarations extend.
  - The caller's options Hash is an `Options` object that the declarations
    write into in place, as the Ruby code does.
- `Records` (`records.dfy`): a record of such a model.
  - Its attributes, stored row and changed-attribute set.
  - `save`, with the create chain as a loop and the update chain as a
    recursion that mirrors the nesting of `around_update` callbacks. Both are
    proved against the `Persistence` functions.
- `Scenarios` (`scenarios.dfy`): the declarations of the library's own examples.
  - Plain and ActiveRecord user classes.
  - What their accessors return.
  - What create and update store.

On these points the model follows what the code does, which differs from what a reader of the library's description might expect:

- Declaring the same method name again redefines the accessor (`define_method`
  overwrites). It is not a no-op, and on ActiveRecord an existing method does
  not suppress the accessor.
- Source field names are not checked when a class is declared. A name the
  instance does not respond to raises `NoMethodError` when the accessor runs.
  A Symbol `:key` that names no method is not checked at declaration either.
  When the accessor runs, it raises the RuntimeError "key option refers to an
  unknown method" (`UnknownKeyMethod` in the model).
- The generated accessor takes the place of the column reader of the same
  name. Reading it recomputes from the current attributes; it does not return
  the stored column (`Records.Record.Read`).
- No setter is needed for a persisted digest: the hooks use `update_column`.

## Model

| member | source | states |
|---|---|---|
| Values.UpcaseChar | lib/has_checksum.rb:77 | a lower-case ASCII letter becomes its own upper-case letter, 32 code points lower; every other character is kept |
| Values.Upcase | lib/has_checksum.rb:77 | upcasing keeps the length and upcases each character in place, so each lower-case ASCII letter becomes its own capital and nothing else changes |
| Digests.ChecksumEncoding | lib/has_checksum.rb:39-50 | binary, base64 and bubblebabble are each chosen exactly when the format names them; hex exactly when it names none of them, including an absent format |
| Digests.SignatureEncoding | lib/has_checksum.rb:31-36 | a signature is binary exactly when the format is "binary", and hex otherwise |
| Digests.DigestString | lib/has_checksum.rb:13-15 | the digest input exists exactly when the instance responds to every source name; otherwise the error is NoMethod of the first name in order it does not respond to |
| Digests.Rendered | lib/has_checksum.rb:14 | the map step yields one rendered value per source name |
| Digests.DigestStringIsJoin | lib/has_checksum.rb:13-15 | the digest input is the `join("")` of the source values' string forms, in declared order |
| Digests.DigestStringAppend | lib/has_checksum.rb:13-15 | the input of a concatenated source list is the concatenation of the two inputs, so order is preserved |
| Digests.DigestStringFrame | lib/has_checksum.rb:13-15 | two instance states that agree on the source readers give the same input: the input depends on nothing else and is re-read on every call |
| Digests.ResolveChecksumAlgorithm | lib/has_checksum.rb:74-82 | a callable is kept; a name resolves exactly when its upcase is a known Digest constant, and then to the class of that upcased name; an already resolved Digest class or OpenSSL digest (which has no `upcase`) and an unknown name are both UnknownAlgorithm carrying the offending value |
| Digests.ResolveSignatureAlgorithm | lib/has_checksum.rb:59-65 | a callable or an OpenSSL digest is kept; a name resolves exactly when OpenSSL knows it, and then to the OpenSSL digest of that name; an unknown name is UnknownAlgorithm; a Digest class is always the TypeError that is not rescued |
| Digests.CalculateChecksum | lib/has_checksum.rb:39-50 | the raw digest for "binary", base64 or bubblebabble of it when named, and its hex for any other or absent format |
| Digests.ResolveKey | lib/has_checksum.rb:18-26 | a Symbol key is the current value of that reader, and fails with UnknownKeyMethod exactly when the instance does not respond to it; a Proc key is the `to_s` of what the Proc returns; any other key is the literal itself |
| Digests.CalculateSignature | lib/has_checksum.rb:17-37 | fails exactly when the key cannot be resolved; otherwise the HMAC of the value under the resolved key, raw for "binary" and hex for anything else |
| Digests.ReadSet | lib/has_checksum.rb:13-26 | every source name is among the readers an accessor sends to |
| Digests.Call | lib/has_checksum.rb:115-117 | a missing source reader is reported before anything else; the only errors are NoMethod and, for a Symbol key, the unknown key method; a transform gets the digest input directly, with no format and no key |
| Digests.CallFrame | lib/has_checksum.rb:115-117 | the accessor's result depends on the instance only through the readers it sends to |
| Digests.SignatureUsesCurrentKey | lib/has_checksum.rb:17-30 | a Symbol key is looked up on every call: the signature succeeds exactly when the instance responds to the key method, and is then the HMAC under that method's current value |
| Digests.SignatureUsesProcKey | lib/has_checksum.rb:22-28 | a Proc key is called on every call and the signature is the HMAC under the `to_s` of its result |
| Digests.SignatureUsesLiteralKey | lib/has_checksum.rb:24-28 | any other key is used as given: the signature is the HMAC under that literal, whatever the instance holds |
| Persistence.Intersects | lib/has_checksum.rb:146 | the test succeeds exactly when some watched name is among the changed attributes |
| Persistence.WatchSet | lib/has_checksum.rb:136-141 | the watch set starts with the source names in order; a name is watched exactly when it is a source name, or is the Symbol key and a column |
| Persistence.HookValue | lib/has_checksum.rb:143-157 | a hook with a named algorithm writes what the accessor of its column returns on the current attributes; a hook with a callable algorithm writes the callable applied to its source values |
| Persistence.CreateRun | lib/has_checksum.rb:143-151 | the after_create chain changes no attribute except the hooks' columns, and when no hook raises, every hook's column holds a digest string afterwards |
| Persistence.UpdateRun | lib/has_checksum.rb:145-156 | the around_update chain changes no attribute except the hooks' columns |
| Persistence.CreateRunAppend | lib/has_checksum.rb:144-151 | running the after_create chain in two parts is running it whole, and a hook that raises stops the chain |
| Persistence.CreateWritesColumn | lib/has_checksum.rb:144-151 | after a create, a digest column holds the value its hook computed from the state the insert and the earlier hooks left, unless a later hook writes the same column |
| Persistence.UpdateKeepsUnwatchedColumn | lib/has_checksum.rb:145-156 | an update that changed nothing watched by a column's hooks leaves that column as it was |
| Persistence.UpdateQuietIsWriteOnly | lib/has_checksum.rb:145-156 | an update that changed nothing any hook watches is just the write: no column is rewritten and nothing raises |
| Persistence.UpdateRewritesWatchedColumn | lib/has_checksum.rb:145-156 | an update that changed a watched attribute rewrites the column with the value computed after the write and after the inner hooks, unless an outer hook of the same column also fires |
| Declaration.Flatten | lib/has_checksum.rb:91 | flattening leaves no nested array |
| Declaration.FlattenAppend | lib/has_checksum.rb:91 | flattening distributes over concatenation, keeping order |
| Declaration.FlattenOfFlat | lib/has_checksum.rb:91 | an argument list with no nested array is unchanged by flattening |
| Declaration.FlattenNested | lib/has_checksum.rb:91 | an array argument is replaced by its own flattened elements, so nested names are kept; with FlattenAppend and FlattenOfFlat this fixes flattening on every input |
| Declaration.FieldNames | lib/has_checksum.rb:105 | the source names exist exactly when every remaining argument is a name, and they are those names in order |
| Declaration.ConfigureSpec | lib/has_checksum.rb:90-106 | no arguments is ConfigRequired; no arguments besides the trailing Hash is NoColumns; configuration succeeds exactly when some arguments remain besides the trailing Hash and all of them are names, and then the source is those names in order and the algorithm defaults to "sha256" |
| Declaration.TrailingHashIsOptions | lib/has_checksum.rb:94 | a trailing Hash is taken as the options, and the names before it are the source |
| Declaration.NamesAloneAreSources | lib/has_checksum.rb:90-106 | names with no Hash after them, such as `has_checksum :username, :created_at`, are all source names, with the default options |
| Declaration.NestedNamesAreFlattened | lib/has_checksum.rb:91-97 | names wrapped in an array declare the same source as the names themselves |
| Declaration.OptionsAloneHaveNoColumns | lib/has_checksum.rb:94-95 | a Hash alone, even inside arrays, is refused as naming no column |
| Declaration.DefaultMethodName | lib/has_checksum.rb:84 | one source name gives that name followed by "_checksum" (or "_signature", line 67) |
| Declaration.JoinAppend | lib/has_checksum.rb:84 | joining one more name appends the separator and the name |
| Declaration.DefaultMethodNames | lib/has_checksum.rb:84 | for every source list: a single name gives that name plus the suffix, and each further name is appended after a "_", so the names appear in declared order joined with "_" before the suffix |
| Declaration.DefaultMethodNameSuffix | lib/has_checksum.rb:84 | every default name ends in "_checksum" for a checksum and "_signature" for a signature |
| Declaration.CompleteSpec | lib/has_checksum.rb:57-68 | a signature without a key is KeyRequired; otherwise the declaration succeeds exactly when its algorithm resolves, stores the resolved algorithm, and fails with the resolution's own error; on success the method name is the given one or the default, and source, format and key are kept |
| Declaration.DeclareSpec | lib/has_checksum.rb:55-86 | configuration errors come first; then, for a signature, the missing key; past those, the declaration succeeds exactly when the given or default algorithm resolves, stores the resolved algorithm, and otherwise fails with the resolution's error; a success keeps the source, format and key and names the method as given or by default |
| Declaration.UnknownAlgorithmRefused | lib/has_checksum.rb:59-82 | a name the digest library does not know is refused when the class is declared, with that name in the error |
| Declaration.AccessorOf | lib/has_checksum.rb:113-118 | the accessor captures the declaration's source; it is the callable itself exactly when the algorithm is callable, and otherwise dispatches to the calculator with the resolved class, the format and, for a signature, the key |
| Declaration.HooksOf | lib/has_checksum.rb:133-157 | hooks are registered exactly when the model is an ActiveRecord class and the method name is a column; they are for that column, watch the watch set, and recompute with the callable on the source when the algorithm is callable and by calling the accessor by name otherwise |
| Declaration.KnownChecksumNameDeclares | lib/has_checksum.rb:74-82 | a checksum whose algorithm name upcases to a digest constant the library has declares successfully with that constant |
| Declaration.KnownSignatureNameDeclares | lib/has_checksum.rb:59-65 | a keyed signature whose algorithm name the OpenSSL library knows declares successfully with that OpenSSL digest |
| Declaration.HookWritesAccessorValue | lib/has_checksum.rb:143-156 | the first hook of a declaration writes exactly what the declaration's accessor computes on the current attributes, for callable and named algorithms alike |
| Declaration.ChecksumAccessorComputes | lib/has_checksum.rb:39-50 | a named checksum accessor returns the digest of the joined source values with the upcased constant, in the selected encoding |
| Declaration.SignatureAccessorComputes | lib/has_checksum.rb:17-37 | a named signature accessor returns the HMAC of the joined source values under the key as resolved on this call, binary or hex |
| Declaration.CallableAccessorComputes | lib/has_checksum.rb:114-115 | a callable algorithm is applied to the joined source values, ignoring format and key |
| Declaration.ModelClass.Configure | lib/has_checksum.rb:90-106 | returns the configured source and options, or the configuration error; the options object is the trailing Hash itself (a fresh one otherwise) and holds the defaulted algorithm |
| Declaration.ModelClass.HasChecksum | lib/has_checksum.rb:71-86 | on success defines the accessor under its method name and appends its hooks; on failure changes neither; the caller's Hash ends up holding what the declaration wrote into it |
| Declaration.ModelClass.HasSignature | lib/has_checksum.rb:55-69 | as for HasChecksum, with the key check, OpenSSL resolution and the "_signature" suffix |
| Declaration.ModelClass.Declare | lib/has_checksum.rb:55-86 | the shared body: configuration, then completion, with the class and the Hash updated as DeclareSpec and OptionsAfter say |
| Declaration.ModelClass.Complete | lib/has_checksum.rb:57-68 | the key check, the resolution and the method name written into the options object, then define_methods; nothing changes on an error |
| Declaration.ModelClass.PoroDefineMethods | lib/has_checksum.rb:112-119 | defines or redefines the accessor under the method name, capturing source, algorithm, format and key; no hooks |
| Declaration.ModelClass.RecordDefineMethods | lib/has_checksum.rb:125-158 | defines or redefines the accessor, and appends the hook pair exactly when the method name is a column |
| Records.Record.constructor | spec/has_checksum_spec.rb:9-16 | a new record responds to every column, nil unless given; a given attribute counts as changed unless it is nil; nothing is stored yet |
| Records.Record.Assign | lib/has_checksum.rb:146 | an attribute write marks the attribute changed unless it is set back to its stored value |
| Records.Record.Read | lib/has_checksum.rb:128-130 | a generated accessor shadows the column reader and computes from the current attributes; any other attribute name returns its current value as a string |
| Records.Record.UpdateColumn | lib/has_checksum.rb:144 | update_column writes the attribute and the stored row and clears the attribute's changed mark |
| Records.Record.Save | lib/has_checksum.rb:143-157 | on a model built by the declarations, a new record runs the create chain and a persisted one the update chain; afterwards the record is persisted with no pending changes and its row equals its attributes |
| Records.HooksFindTheirAccessor | lib/has_checksum.rb:125-156 | on a model built by the declarations, a hook that calls the accessor by name always finds it, because the accessor is defined before its hooks are registered, so the hook computes what the accessor returns |
| Records.HookWritesWhatReadReturns | lib/has_checksum.rb:125-156 | on a declared model, a hook that calls the accessor by name writes exactly what reading that column's name on the record returns |
| Records.Record.Create | lib/has_checksum.rb:144-151 | after the insert, each after_create hook in registration order writes its column; the outcome and the final attributes are those of CreateRun |
| Records.Record.AroundUpdate | lib/has_checksum.rb:145-156 | each hook tests its watch set against the changes before the write, lets the inner hooks and the write run, then rewrites its column if it fired; the outcome and attributes are those of UpdateRun |
| Scenarios.Chop | spec/has_checksum_spec.rb:42 | chopping removes a trailing "\r\n" as a unit, otherwise exactly the last character of a non-empty string, and leaves empty text empty |
| Scenarios.ChopSshaw | spec/has_checksum_spec.rb:116 | "sshaw" chopped is "ssha" |
| Scenarios.UpcaseSha256 | lib/has_checksum.rb:97 | the default algorithm upcases to the constant SHA256 |
| Scenarios.SingleSource | lib/has_checksum.rb:14 | the digest input of a single source field is that field's value |
| Scenarios.ResolveSha256 | lib/has_checksum.rb:77 | the default algorithm resolves to Digest::SHA256 |
| Scenarios.UsernameChecksumName | lib/has_checksum.rb:84 | the default checksum name of `:username` is username_checksum |
| Scenarios.AChecksumName | lib/has_checksum.rb:84 | the default checksum name of `:a` is a_checksum |
| Scenarios.UsernameSignatureName | lib/has_checksum.rb:67 | the default signature name of `:username` is username_signature |
| Scenarios.SingleNameConfigured | lib/has_checksum.rb:90-97 | a single name argument configures that name with the algorithm "sha256" |
| Scenarios.UsernameChecksumDeclared | spec/has_checksum_spec.rb:37 | `has_checksum :username` resolves to Digest::SHA256 under the name username_checksum |
| Scenarios.CustomChecksumDeclared | spec/has_checksum_spec.rb:42 | a proc checksum keeps the proc and the given method name |
| Scenarios.PoroDefaultChecksum | spec/has_checksum_spec.rb:76-79 | on a plain class, username_checksum of "sshaw" is the hex SHA256 of "sshaw" |
| Scenarios.SshawChecksum | spec/has_checksum_spec.rb:76-79 | the default checksum accessor on username "sshaw" is the hex SHA256 of "sshaw" |
| Scenarios.PoroProcChecksum | spec/has_checksum_spec.rb:115-117 | on a plain class, the chop proc checksum of "sshaw" is "ssha" |
| Scenarios.NoConfig | spec/has_checksum_spec.rb:60-65 | a declaration with no arguments raises "config required" |
| Scenarios.UnknownChecksumAlgorithm | spec/has_checksum_spec.rb:68-73 | the algorithm "x" raises "unknown algorithm 'x'" |
| Scenarios.SignatureWithoutKey | spec/has_checksum_spec.rb:129-135 | a signature without a key raises "key option required to calculate a signature" |
| Scenarios.KeyMethodSignatureDeclared | spec/has_checksum_spec.rb:47 | a signature with a Symbol key resolves to OpenSSL sha256 and keeps the key and the given method name |
| Scenarios.SignatureWithKeyMethod | spec/has_checksum_spec.rb:175-180 | the signature under a key method is the hex HMAC-SHA256 under that method's value |
| Scenarios.SharedHashFirstDeclared | lib/has_checksum.rb:77-84 | the first declaration through a Hash resolves the default algorithm and names its method after its own source |
| Scenarios.SharedHashSecondRefused | lib/has_checksum.rb:74-82 | a declaration that finds a resolved Digest class under :algorithm refuses it as an unknown algorithm |
| Scenarios.SharedOptionsHash | lib/has_checksum.rb:72-84 | reusing one options Hash for two checksums makes the second fail, because the first wrote the resolved class and its method name into the Hash |
| Scenarios.ProcChecksumDeclared | spec/has_checksum_spec.rb:25 | the proc checksum of the example model keeps the proc and the method name a_checksum |
| Scenarios.KeyedSignatureDeclared | spec/has_checksum_spec.rb:27 | `has_signature :username, :key => :updated_at` resolves to OpenSSL sha256 under the name username_signature |
| Scenarios.DeclareUsernameChecksum | spec/has_checksum_spec.rb:22 | on the example model, the default checksum defines username_checksum and a hook watching username |
| Scenarios.DeclareProcChecksum | spec/has_checksum_spec.rb:25 | on the example model, the proc checksum defines a_checksum and a hook that applies the proc |
| Scenarios.DeclareKeyedSignature | spec/has_checksum_spec.rb:27 | on the example model, the signature defines username_signature and a hook watching username and updated_at |
| Scenarios.DeclareUser | spec/has_checksum_spec.rb:18-32 | the example model ends up with the three column-backed accessors and their hooks in declaration order; the two declarations without a column of their own (`username_created_at_checksum` and `foo_checksum`) are not made |
| Scenarios.UserCreateRun | spec/has_checksum_spec.rb:217-237 | creating "sshaw" stores the SHA256 checksum, "ssha", and the signature under the creation timestamp |
| Scenarios.UserUpdateRun | spec/has_checksum_spec.rb:250-268 | an update of age and updated_at rewrites only the signature, under the new timestamp |
| Scenarios.CreateSshaw | spec/has_checksum_spec.rb:217-237 | creating "sshaw" through Save stores the name, the timestamp, nil for age, and the three digests |
| Scenarios.UpdateAge | spec/has_checksum_spec.rb:250-268 | updating age and updated_at through Save stores them and rewrites only the signature |
| Scenarios.UserLifecycle | spec/has_checksum_spec.rb:250-268 | create then update: the signature follows updated_at, the checksum stays, and the new age is stored |

## Left out

- The digest and HMAC functions and the three encoders are uninterpreted parameters (`Library`). So are the sets of names `Digest.const_get` and `OpenSSL::Digest.new` accept. No property of the cryptography is modelled.
- Ruby metaprogramming is not modelled. `included`, `extend`, `define_method` and `after_create`/`around_update` registration become updates of the `ModelClass` accessor map and hook list.
- The choice between the PORO and ActiveRecord variants is a boolean fixed when the class is created. The same goes for `columns_hash`, as a set of names.
- The ActiveRecord internals are not modelled: SQL, validations, `id`, and the automatic `created_at`/`updated_at` timestamps. The caller assigns timestamps as ordinary attributes before saving, which is where ActiveRecord's timestamping puts them relative to the update callbacks.
- The transaction around a save is not modelled: when a hook raises, the model keeps the partial writes that `update_column` already made.
- Values are taken as already rendered by `to_s`. Times, integers and nil render through `Value`, and how each class renders is not modelled.
- An options Hash that is not the last element after flattening makes the model return `NonNameSource` at declaration time. In Ruby it stays in the source list and fails only when the accessor calls `public_send` with it.
- Digests.ResolveSignatureAlgorithm: a Symbol algorithm (which `OpenSSL::Digest.new` refuses with a TypeError) is not distinguished from a String name. Algorithm names are strings.
- Declaration.CompleteSpec: a key of `false` (falsy, so refused by `unless options[:key]`) is not modelled. Every given key is truthy.
- Declaration.AccessorOf captures the format and key when the accessor is defined. In Ruby the block holds the options Hash itself, so later caller edits to `:format` or `:key` in that Hash would be seen. Those edits are not modelled.
- Declaration.HooksOf: captures the column name when the hook is defined. In Ruby the hooks read `options[:method]` from the options Hash each time they run, so a later caller edit of `:method` in that Hash would change which column they write. Those edits are not modelled.
- Values.Upcase: only ASCII letters are upcased; Unicode case mapping is not modelled.
- Values.Library: `digestConst` stands for the names that `Digest.const_get` resolves to a Digest class. `Module#const_get` also finds other constants through Object ("env" resolves to `ENV`), and the accessor then raises NoMethodError when called; that case is not modelled.
- Digests.DigestString: every source name is read from the instance's readers (`attrs`). A source naming another generated accessor is read from those values, not recomputed through that accessor.
- Digests.ResolveKey: a Symbol key naming another generated accessor is likewise read from `attrs`. Ruby `send`s it to that accessor.
- Digests.CallFrame: Procs, whether a `:key` Proc (`KeySpec.KeyProc`) or a callable `:algorithm` (`Algorithm.Callable`), are modelled as pure Dafny functions. In Ruby a Proc key is called on every invocation and may return something different each time (a clock, say). So the frame property holds only for Procs that depend on nothing but their arguments.
- Records.Record.constructor: a given attribute that is not a column is kept as a reader. ActiveRecord refuses it with UnknownAttributeError.
- `HasChecksum::VERSION` and the gem packaging are not part of this model.
