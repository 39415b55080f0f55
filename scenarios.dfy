/** Declarations and calls as a user of the library writes them: a plain
    Ruby class and an ActiveRecord model with the declarations of the
    library's own examples, and what their accessors and saves give. */
module Scenarios {
  import opened Values
  import opened Digests
  import opened Persistence
  import opened Declaration
  import opened Records

  /** `String#chop`: a trailing "\r\n" is removed as a unit; otherwise the
      last character is removed, and empty text stays empty. */
  function Chop(v: string): (r: string)
    ensures |v| >= 2 && v[|v| - 2..] == "\r\n" ==> r + "\r\n" == v
    ensures !(|v| >= 2 && v[|v| - 2..] == "\r\n") && v != [] ==> r + [v[|v| - 1]] == v
    ensures v == [] ==> r == []
  {
    if |v| >= 2 && v[|v| - 2..] == "\r\n" then v[..|v| - 2]
    else if v == [] then v
    else v[..|v| - 1]
  }

  lemma ChopSshaw()
    ensures Chop("sshaw") == "ssha"
  {
    assert "sshaw"[3..] != "\r\n" by {
      assert "sshaw"[3..][1] == 'w';
    }
    assert "sshaw"[..4] == "ssha";
  }

  /** The default algorithm name, upcased for the constant lookup. */
  lemma UpcaseSha256()
    ensures Upcase("sha256") == "SHA256"
  {
    var s := "sha256";
    assert Upcase(s[6..]) == "";
    assert Upcase(s[5..]) == "6";
    assert Upcase(s[4..]) == "56";
    assert Upcase(s[3..]) == "256";
    assert Upcase(s[2..]) == "A256";
    assert Upcase(s[1..]) == "HA256";
  }

  /** The digest input of a single source field is its value. */
  lemma SingleSource(name: string, readers: map<string, Value>)
    requires name in readers
    ensures DigestString([name], readers) == Ok(ToS(readers[name]))
  {
    assert [name][1..] == [];
    assert ToS(readers[name]) + "" == ToS(readers[name]);
  }

  /** The default algorithm resolves to `Digest::SHA256`. */
  lemma ResolveSha256(lib: Library)
    requires lib.digestConst("SHA256")
    ensures ResolveChecksumAlgorithm(lib, Name("sha256")) == Ok(DigestClass("SHA256"))
  {
    UpcaseSha256();
  }

  /** The default names of the example declarations. */
  lemma UsernameChecksumName()
    ensures DefaultMethodName(Checksum, ["username"]) == "username_checksum"
  {
    assert "username" + Suffix(Checksum) == "username_checksum";
  }

  lemma AChecksumName()
    ensures DefaultMethodName(Checksum, ["a"]) == "a_checksum"
  {
    assert "a" + Suffix(Checksum) == "a_checksum";
  }

  lemma UsernameSignatureName()
    ensures DefaultMethodName(Signature, ["username"]) == "username_signature"
  {
    assert "username" + Suffix(Signature) == "username_signature";
  }

  /** A single name argument configures that name with the default algorithm. */
  lemma SingleNameConfigured(name: string)
    ensures ConfigureSpec(Flatten([Field(name)]), NoOptions)
         == Ok(Declared([name], NoOptions.(algorithm := Some(Name("sha256")))))
  {
    FieldsAreFlat([name]);
    FlattenOfFlat([Field(name)]);
  }

  /** `has_checksum :username`: the hex SHA256 under the default name. */
  lemma UsernameChecksumDeclared(lib: Library)
    requires lib.digestConst("SHA256")
    ensures DeclareSpec(lib, Checksum, Flatten([Field("username")]), NoOptions)
         == Ok(Declared(["username"], OptionValues(Some(DigestClass("SHA256")), None, Some("username_checksum"), None)))
  {
    SingleNameConfigured("username");
    ResolveSha256(lib);
    UsernameChecksumName();
  }

  /** `has_checksum :username, :method => "custom_checksum", :algorithm => proc` */
  lemma CustomChecksumDeclared(lib: Library, o: Options)
    requires o.Snapshot() == OptionValues(Some(Callable(Chop)), None, Some("custom_checksum"), None)
    ensures DeclareSpec(lib, Checksum, Flatten([Field("username"), Opts(o)]), o.Snapshot())
         == Ok(Declared(["username"], o.Snapshot()))
  {
    TrailingHashIsOptions(["username"], o, o.Snapshot());
    assert Fields(["username"]) + [Opts(o)] == [Field("username"), Opts(o)];
  }

  /** `has_checksum :username` on a plain class: the accessor
      `username_checksum` returns the hex SHA256 of the username. */
  method PoroDefaultChecksum(lib: Library) returns (checksum: Result<string>)
    requires lib.digestConst("SHA256")
    ensures checksum == Ok(lib.hex(lib.digest("SHA256", "sshaw")))
  {
    var user := new ModelClass(false, {});
    var plain := [Field("username")];
    var r := user.HasChecksum(lib, plain);
    assert user.accessors["username_checksum"] == ChecksumOf(["username"], "SHA256", None) by {
      FlattenOfFlat(plain);
      UsernameChecksumDeclared(lib);
    }

    var instance := map["username" := Str("sshaw")];
    checksum := Call(lib, user.accessors["username_checksum"], instance);
    SshawChecksum(lib);
  }

  /** The default checksum accessor on a username "sshaw". */
  lemma SshawChecksum(lib: Library)
    ensures Call(lib, ChecksumOf(["username"], "SHA256", None), map["username" := Str("sshaw")])
         == Ok(lib.hex(lib.digest("SHA256", "sshaw")))
  {
    SingleSource("username", map["username" := Str("sshaw")]);
  }

  /** `has_checksum :username, :method => "custom_checksum", :algorithm => proc`
      on a plain class: the accessor applies the proc to the username. */
  method PoroProcChecksum(lib: Library) returns (custom: Result<string>)
    ensures custom == Ok("ssha")
  {
    var user := new ModelClass(false, {});
    var o := new Options(OptionValues(Some(Callable(Chop)), None, Some("custom_checksum"), None));
    var withHash := [Field("username"), Opts(o)];
    FlattenOfFlat(withHash);
    assert GivenOptions(Flatten(withHash)) == o.Snapshot();
    CustomChecksumDeclared(lib, o);
    var r := user.HasChecksum(lib, withHash);
    assert user.accessors == map["custom_checksum" := Transform(["username"], Chop)];

    var instance := map["username" := Str("sshaw")];
    SingleSource("username", instance);
    custom := Call(lib, user.accessors["custom_checksum"], instance);
    ChopSshaw();
  }

  /** `has_checksum` with no arguments raises "config required". */
  method NoConfig(lib: Library) returns (r: Outcome)
    ensures r == Fail(ConfigRequired)
  {
    var user := new ModelClass(false, {});
    r := user.HasChecksum(lib, []);
  }

  /** `has_checksum :age, :algorithm => "x"` raises "unknown algorithm 'x'". */
  method UnknownChecksumAlgorithm(lib: Library) returns (r: Outcome)
    requires !lib.digestConst("X")
    ensures r == Fail(UnknownAlgorithm(Name("x")))
  {
    var user := new ModelClass(false, {});
    var o := new Options(NoOptions.(algorithm := Some(Name("x"))));
    var config := [Field("age"), Opts(o)];
    FlattenOfFlat(config);
    r := user.HasChecksum(lib, config);
    assert r == Fail(UnknownAlgorithm(Name("x"))) by {
      FlattenOfFlat(config);
      TrailingHashIsOptions(["age"], o, NoOptions.(algorithm := Some(Name("x"))));
      assert Fields(["age"]) + [Opts(o)] == config;
      assert Upcase("x") == "X";
      UnknownAlgorithmRefused(lib, Checksum, config, NoOptions.(algorithm := Some(Name("x"))), "x");
    }
  }

  /** `has_signature :age` raises "key option required to calculate a
      signature"; the Hash that configuration created is thrown away. */
  method SignatureWithoutKey(lib: Library) returns (r: Outcome)
    ensures r == Fail(KeyRequired)
  {
    var user := new ModelClass(false, {});
    var config := [Field("age")];
    r := user.HasSignature(lib, config);
    assert r == Fail(KeyRequired) by {
      FlattenOfFlat(config);
      assert ConfigureSpec(config, NoOptions).Ok?;
    }
  }

  lemma KeyMethodSignatureDeclared(lib: Library, o: Options, given: OptionValues)
    requires lib.opensslName("sha256")
    requires given == OptionValues(None, None, Some("with_custom_key"), Some(KeyMethod("key_method")))
    ensures DeclareSpec(lib, Signature, Flatten([Field("username"), Opts(o)]), given)
         == Ok(Declared(["username"], given.(algorithm := Some(OpenSSLDigest("sha256")))))
  {
    FlattenOfFlat([Field("username"), Opts(o)]);
    TrailingHashIsOptions(["username"], o, given);
    assert Fields(["username"]) + [Opts(o)] == [Field("username"), Opts(o)];
  }

  /** `has_signature :username, :key => :key_method, :method => "with_custom_key"`:
      the accessor is the hex HMAC-SHA256 of the username under what
      `key_method` returns. */
  method SignatureWithKeyMethod(lib: Library) returns (signature: Result<string>)
    requires lib.opensslName("sha256")
    ensures signature == Ok(lib.hex(lib.hmac("sha256", "__key__", "sshaw")))
  {
    var user := new ModelClass(false, {});
    var given := OptionValues(None, None, Some("with_custom_key"), Some(KeyMethod("key_method")));
    var o := new Options(given);
    var config := [Field("username"), Opts(o)];
    FlattenOfFlat(config);
    var r := user.HasSignature(lib, config);
    assert user.accessors["with_custom_key"] == SignatureOf(["username"], "sha256", None, KeyMethod("key_method")) by {
      KeyMethodSignatureDeclared(lib, o, given);
    }
    var instance := map["username" := Str("sshaw"), "key_method" := Str("__key__")];
    SingleSource("username", instance);
    signature := Call(lib, user.accessors["with_custom_key"], instance);
  }

  /** The first declaration sharing a Hash resolves the default algorithm
      and names its method after its source. */
  lemma SharedHashFirstDeclared(lib: Library, o: Options)
    requires lib.digestConst("SHA256")
    ensures DeclareSpec(lib, Checksum, Flatten([Field("a"), Opts(o)]), NoOptions)
         == Ok(Declared(["a"], OptionValues(Some(DigestClass("SHA256")), None, Some("a_checksum"), None)))
  {
    FlattenOfFlat([Field("a"), Opts(o)]);
    TrailingHashIsOptions(["a"], o, NoOptions);
    assert Fields(["a"]) + [Opts(o)] == [Field("a"), Opts(o)];
    ResolveSha256(lib);
    AChecksumName();
  }

  /** The second finds the resolved class under `:algorithm`. */
  lemma SharedHashSecondRefused(lib: Library, o: Options, given: OptionValues)
    requires given == OptionValues(Some(DigestClass("SHA256")), None, Some("a_checksum"), None)
    ensures DeclareSpec(lib, Checksum, Flatten([Field("b"), Opts(o)]), given)
         == Err(UnknownAlgorithm(DigestClass("SHA256")))
  {
    FlattenOfFlat([Field("b"), Opts(o)]);
    TrailingHashIsOptions(["b"], o, given);
    assert Fields(["b"]) + [Opts(o)] == [Field("b"), Opts(o)];
  }

  /** One options Hash passed to two declarations: the first writes the
      resolved `Digest::SHA256` and its method name into the Hash, so the
      second finds a class where it expects a name and is refused. */
  method SharedOptionsHash(lib: Library) returns (first: Outcome, second: Outcome)
    requires lib.digestConst("SHA256")
    ensures first == Pass
    ensures second == Fail(UnknownAlgorithm(DigestClass("SHA256")))
  {
    var user := new ModelClass(false, {});
    var o := new Options(NoOptions);
    var a := [Field("a"), Opts(o)];
    FlattenOfFlat(a);
    first := user.HasChecksum(lib, a);
    assert first == Pass && o.Snapshot() == OptionValues(Some(DigestClass("SHA256")), None, Some("a_checksum"), None) by {
      SharedHashFirstDeclared(lib, o);
    }
    var b := [Field("b"), Opts(o)];
    FlattenOfFlat(b);
    second := user.HasChecksum(lib, b);
    assert second == Fail(UnknownAlgorithm(DigestClass("SHA256"))) by {
      SharedHashSecondRefused(lib, o, OptionValues(Some(DigestClass("SHA256")), None, Some("a_checksum"), None));
    }
  }

  /** The columns of the example `users` table. */
  const UserColumns: set<string> :=
    {"username", "username_checksum", "a_checksum", "username_signature", "age", "created_at", "updated_at"}

  /** What the three column-backed declarations of the example model define:
      `has_checksum :username`, a proc checksum stored in `a_checksum`, and
      `has_signature :username, :key => :updated_at`. */
  function UserAccessors(): map<string, Accessor>
  {
    map["username_checksum" := ChecksumOf(["username"], "SHA256", None),
        "a_checksum" := Transform(["username"], Chop),
        "username_signature" := SignatureOf(["username"], "sha256", None, KeyMethod("updated_at"))]
  }

  /** Their hooks, in declaration order. The signature also watches its key,
      `updated_at`, because that is a column. */
  function UserHooks(): seq<Hook>
  {
    [Hook("username_checksum", ["username"], SendAccessor),
     Hook("a_checksum", ["username"], ApplyTransform(["username"], Chop)),
     Hook("username_signature", ["username", "updated_at"], SendAccessor)]
  }

  lemma ProcChecksumDeclared(lib: Library, o: Options, given: OptionValues)
    requires given == OptionValues(Some(Callable(Chop)), None, Some("a_checksum"), None)
    ensures DeclareSpec(lib, Checksum, Flatten([Field("username"), Opts(o)]), given)
         == Ok(Declared(["username"], given))
  {
    FlattenOfFlat([Field("username"), Opts(o)]);
    TrailingHashIsOptions(["username"], o, given);
    assert Fields(["username"]) + [Opts(o)] == [Field("username"), Opts(o)];
  }

  lemma KeyedSignatureDeclared(lib: Library, o: Options, given: OptionValues)
    requires lib.opensslName("sha256")
    requires given == OptionValues(None, None, None, Some(KeyMethod("updated_at")))
    ensures DeclareSpec(lib, Signature, Flatten([Field("username"), Opts(o)]), given)
         == Ok(Declared(["username"], given.(algorithm := Some(OpenSSLDigest("sha256")),
                                              methodName := Some("username_signature"))))
  {
    FlattenOfFlat([Field("username"), Opts(o)]);
    TrailingHashIsOptions(["username"], o, given);
    assert Fields(["username"]) + [Opts(o)] == [Field("username"), Opts(o)];
    UsernameSignatureName();
  }

  /** `has_checksum :username` on the example model. */
  method DeclareUsernameChecksum(lib: Library, user: ModelClass)
    requires lib.digestConst("SHA256")
    requires user.Valid() && user.isRecord && user.columns == UserColumns
    modifies user
    ensures user.Valid()
    ensures user.accessors == old(user.accessors)["username_checksum" := UserAccessors()["username_checksum"]]
    ensures user.hooks == old(user.hooks) + [UserHooks()[0]]
  {
    var plain := [Field("username")];
    FlattenOfFlat(plain);
    var r := user.HasChecksum(lib, plain);
    UsernameChecksumDeclared(lib);
  }

  /** `has_checksum :username, :method => :a_checksum, :algorithm => proc` on
      the example model. */
  method DeclareProcChecksum(lib: Library, user: ModelClass)
    requires user.Valid() && user.isRecord && user.columns == UserColumns
    modifies user
    ensures user.Valid()
    ensures user.accessors == old(user.accessors)["a_checksum" := UserAccessors()["a_checksum"]]
    ensures user.hooks == old(user.hooks) + [UserHooks()[1]]
  {
    var given := OptionValues(Some(Callable(Chop)), None, Some("a_checksum"), None);
    var o := new Options(given);
    var config := [Field("username"), Opts(o)];
    FlattenOfFlat(config);
    var r := user.HasChecksum(lib, config);
    ProcChecksumDeclared(lib, o, given);
  }

  /** `has_signature :username, :key => :updated_at` on the example model. */
  method DeclareKeyedSignature(lib: Library, user: ModelClass)
    requires lib.opensslName("sha256")
    requires user.Valid() && user.isRecord && user.columns == UserColumns
    modifies user
    ensures user.Valid()
    ensures user.accessors == old(user.accessors)["username_signature" := UserAccessors()["username_signature"]]
    ensures user.hooks == old(user.hooks) + [UserHooks()[2]]
  {
    var given := OptionValues(None, None, None, Some(KeyMethod("updated_at")));
    var o := new Options(given);
    var config := [Field("username"), Opts(o)];
    FlattenOfFlat(config);
    var r := user.HasSignature(lib, config);
    KeyedSignatureDeclared(lib, o, given);
    assert "updated_at" in UserColumns && "username_signature" in UserColumns;
    assert WatchSet(["username"], given.key, UserColumns) == ["username", "updated_at"];
  }

  /** The example ActiveRecord model with its column-backed declarations:
      each defines its accessor and registers the hooks for its column. The
      two declarations without a column of their own, `has_checksum :username,
      :created_at` and `has_checksum :foo`, are not made here, so their
      accessors `username_created_at_checksum` and `foo_checksum` are absent. */
  method DeclareUser(lib: Library) returns (user: ModelClass)
    requires lib.digestConst("SHA256") && lib.opensslName("sha256")
    ensures fresh(user) && user.Valid() && user.isRecord && user.columns == UserColumns
    ensures user.accessors == UserAccessors() && user.hooks == UserHooks()
  {
    user := new ModelClass(true, UserColumns);
    DeclareUsernameChecksum(lib, user);
    DeclareProcChecksum(lib, user);
    DeclareKeyedSignature(lib, user);
    assert [UserHooks()[0]] + [UserHooks()[1]] + [UserHooks()[2]] == UserHooks();
  }

  /** The hex SHA256 of the username, as `username_checksum` stores it. */
  function UsernameChecksum(lib: Library, username: string): string
  {
    lib.hex(lib.digest("SHA256", username))
  }

  /** The hex HMAC-SHA256 of the username under the `updated_at` text. */
  function UsernameSignature(lib: Library, username: string, updatedAt: string): string
  {
    lib.hex(lib.hmac("sha256", updatedAt, username))
  }

  /** After the insert of a user named "sshaw", the three hooks write the
      checksum, the chopped name and the signature under the `updated_at`
      the record was created with. */
  lemma UserCreateRun(lib: Library, attrs: map<string, Value>, t: string)
    requires "username" in attrs && attrs["username"] == Str("sshaw")
    requires "updated_at" in attrs && attrs["updated_at"] == Str(t)
    ensures CreateRun(lib, UserAccessors(), UserHooks(), attrs)
         == Run(Pass, attrs["username_checksum" := Str(UsernameChecksum(lib, "sshaw"))]
                           ["a_checksum" := Str("ssha")]
                           ["username_signature" := Str(UsernameSignature(lib, "sshaw", t))])
  {
    var hooks := UserHooks();
    var a1 := attrs["username_checksum" := Str(UsernameChecksum(lib, "sshaw"))];
    var a2 := a1["a_checksum" := Str("ssha")];
    var a3 := a2["username_signature" := Str(UsernameSignature(lib, "sshaw", t))];
    SingleSource("username", attrs);
    SingleSource("username", a1);
    SingleSource("username", a2);
    ChopSshaw();
    assert HookValue(lib, UserAccessors(), hooks[0], attrs) == Ok(UsernameChecksum(lib, "sshaw"));
    assert HookValue(lib, UserAccessors(), hooks[1], a1) == Ok("ssha");
    assert HookValue(lib, UserAccessors(), hooks[2], a2) == Ok(UsernameSignature(lib, "sshaw", t));
    assert hooks[1..][1..] == [hooks[2]] && hooks[2..][1..] == [];
    assert CreateRun(lib, UserAccessors(), [hooks[2]], a2) == Run(Pass, a3);
    assert CreateRun(lib, UserAccessors(), hooks[1..], a1) == Run(Pass, a3);
  }

  /** An update that changed `age` and `updated_at` (and not the username)
      rewrites only the signature, under the new `updated_at`. */
  lemma UserUpdateRun(lib: Library, attrs: map<string, Value>, t: string)
    requires "username" in attrs && attrs["username"] == Str("sshaw")
    requires "updated_at" in attrs && attrs["updated_at"] == Str(t)
    ensures UpdateRun(lib, UserAccessors(), UserHooks(), {"age", "updated_at"}, attrs)
         == Run(Pass, attrs["username_signature" := Str(UsernameSignature(lib, "sshaw", t))])
  {
    var hooks := UserHooks();
    var changed := {"age", "updated_at"};
    SingleSource("username", attrs);
    assert !Intersects(hooks[0].watching, changed);
    assert !Intersects(hooks[1].watching, changed);
    assert hooks[2].watching[1] == "updated_at";
    assert Intersects(hooks[2].watching, changed);
    assert hooks[1..][1..] == [hooks[2]] && hooks[2..][1..] == [];
    assert HookValue(lib, UserAccessors(), hooks[2], attrs) == Ok(UsernameSignature(lib, "sshaw", t));
    assert [hooks[2]][1..] == [];
    assert UpdateRun(lib, UserAccessors(), [], changed, attrs) == Run(Pass, attrs);
    var last := UpdateRun(lib, UserAccessors(), [hooks[2]], changed, attrs);
    assert last == Run(Pass, attrs["username_signature" := Str(UsernameSignature(lib, "sshaw", t))]);
    assert UpdateRun(lib, UserAccessors(), hooks[1..], changed, attrs) == last;
  }

  /** `ARUser.create!(:username => "sshaw")`, with the creation timestamp
      `t` assigned to `updated_at`: the insert stores the name, nil for the
      other columns, and the three digests the hooks write. */
  method CreateSshaw(lib: Library, model: ModelClass, t: string) returns (user: Record, created: Outcome)
    requires model.Valid() && model.columns == UserColumns
    requires model.accessors == UserAccessors() && model.hooks == UserHooks()
    ensures fresh(user) && user.model == model
    ensures user.persisted && user.changed == {} && user.row == user.attrs
    ensures created == Pass
    ensures "username" in user.row && user.row["username"] == Str("sshaw")
    ensures "updated_at" in user.row && user.row["updated_at"] == Str(t)
    ensures "age" in user.row && user.row["age"] == Nil
    ensures "username_checksum" in user.row && user.row["username_checksum"] == Str(UsernameChecksum(lib, "sshaw"))
    ensures "a_checksum" in user.row && user.row["a_checksum"] == Str("ssha")
    ensures "username_signature" in user.row && user.row["username_signature"] == Str(UsernameSignature(lib, "sshaw", t))
  {
    user := new Record(model, map["username" := Str("sshaw"), "updated_at" := Str(t)]);
    ghost var start := user.attrs;
    assert "username" in start && start["username"] == Str("sshaw");
    assert "updated_at" in start && start["updated_at"] == Str(t);
    assert "age" in start && start["age"] == Nil;
    created := user.Save(lib);
    UserCreateRun(lib, start, t);
  }

  /** `update!(:age => 99)` on that record, with the new timestamp `t` assigned
      to `updated_at`: the age and timestamp are stored and the signature is
      rewritten under `t`; every other column, the checksums included, stays. */
  method UpdateAge(lib: Library, user: Record, t: string) returns (updated: Outcome)
    requires user.model.Valid() && user.model.columns == UserColumns
    requires user.model.accessors == UserAccessors() && user.model.hooks == UserHooks()
    requires user.persisted && user.changed == {} && user.row == user.attrs
    requires "username" in user.row && user.row["username"] == Str("sshaw")
    requires "updated_at" in user.row && user.row["updated_at"] != Str(t)
    requires "age" in user.row && user.row["age"] == Nil
    modifies user
    ensures updated == Pass
    ensures user.row == old(user.row)["age" := Str("99")]["updated_at" := Str(t)]
                                     ["username_signature" := Str(UsernameSignature(lib, "sshaw", t))]
  {
    user.Assign("age", Str("99"));
    user.Assign("updated_at", Str(t));
    ghost var edited := old(user.row)["age" := Str("99")]["updated_at" := Str(t)];
    assert user.attrs == edited && user.changed == {"age", "updated_at"};
    updated := user.Save(lib);
    UserUpdateRun(lib, edited, t);
  }

  /** `ARUser.create!(:username => "sshaw")` and then `update!(:age => 99)`,
      with the timestamps `t1` and a later `t2` assigned as attributes: the
      insert stores all three digests; the update stores the new age and a
      signature under `t2`, and leaves the checksum as it was. */
  method UserLifecycle(lib: Library, t1: string, t2: string)
    returns (created: Outcome, updated: Outcome, afterCreate: map<string, Value>, afterUpdate: map<string, Value>)
    requires lib.digestConst("SHA256") && lib.opensslName("sha256")
    requires t1 != t2
    ensures created == Pass && updated == Pass
    ensures "username_checksum" in afterCreate && afterCreate["username_checksum"] == Str(UsernameChecksum(lib, "sshaw"))
    ensures "a_checksum" in afterCreate && afterCreate["a_checksum"] == Str("ssha")
    ensures "username_signature" in afterCreate && afterCreate["username_signature"] == Str(UsernameSignature(lib, "sshaw", t1))
    ensures "username_signature" in afterUpdate && afterUpdate["username_signature"] == Str(UsernameSignature(lib, "sshaw", t2))
    ensures "username_checksum" in afterUpdate && afterUpdate["username_checksum"] == afterCreate["username_checksum"]
    ensures "age" in afterUpdate && afterUpdate["age"] == Str("99")
  {
    var model := DeclareUser(lib);
    var user;
    user, created := CreateSshaw(lib, model, t1);
    afterCreate := user.row;
    updated := UpdateAge(lib, user, t2);
    afterUpdate := user.row;
  }
}
