/** What a generated accessor computes: the digest input read from the
    instance (`digest_string`), the output format (`calculate_checksum`), the
    key and HMAC of a signature (`calculate_signature`), and the resolution
    of `:algorithm` done once at declaration time. */
module Digests {
  import opened Values

  /** The output encodings the library can select. */
  datatype Encoding = Binary | Hex | Base64 | BubbleBabble

  /** Format selection of `calculate_checksum`: each `when` accepts the
      Symbol and the String of one name, so a format is given here by its
      name; `None` is an absent `:format`. */
  function ChecksumEncoding(format: Option<string>): (e: Encoding)
    ensures e == Binary <==> format == Some("binary")
    ensures e == Base64 <==> format == Some("base64")
    ensures e == BubbleBabble <==> format == Some("bubblebabble")
    ensures e == Hex <==> format !in {Some("binary"), Some("base64"), Some("bubblebabble")}
  {
    if format == Some("binary") then Binary
    else if format == Some("base64") then Base64
    else if format == Some("bubblebabble") then BubbleBabble
    else Hex
  }

  /** Format selection of `calculate_signature`: binary or hex, nothing else. */
  function SignatureEncoding(format: Option<string>): (e: Encoding)
    ensures e == Binary <==> format == Some("binary")
    ensures e == Hex <==> format != Some("binary")
  {
    if format == Some("binary") then Binary else Hex
  }

  /** Turns raw digest output into the selected encoding. */
  function Encode(lib: Library, e: Encoding, raw: string): string
  {
    match e
    case Binary => raw
    case Hex => lib.hex(raw)
    case Base64 => lib.base64(raw)
    case BubbleBabble => lib.bubblebabble(raw)
  }

  /** `digest_string`: every source name is sent to the instance in declared
      order and the results are joined with no separator. `readers` holds what
      each public reader of the instance returns right now; a name the
      instance does not respond to raises NoMethodError, the first such name
      in order being the one reported. */
  function DigestString(source: seq<string>, readers: map<string, Value>): (r: Result<string>)
    ensures r.Ok? <==> forall i :: 0 <= i < |source| ==> source[i] in readers
    ensures r.Err? ==>
      exists i :: 0 <= i < |source| && r.error == NoMethod(source[i]) && source[i] !in readers
        && forall j :: 0 <= j < i ==> source[j] in readers
  {
    if source == [] then Ok("")
    else if source[0] !in readers then Err(NoMethod(source[0]))
    else
      var rest := DigestString(source[1..], readers);
      if rest.Err? then
        var i :| 0 <= i < |source| - 1 && rest.error == NoMethod(source[1..][i]) && source[1..][i] !in readers
                 && forall j :: 0 <= j < i ==> source[1..][j] in readers;
        assert source[i + 1] == source[1..][i];
        Err(rest.error)
      else Ok(ToS(readers[source[0]]) + rest.value)
  }

  /** The values the `map` step of `digest_string` produces, in order. */
  function Rendered(source: seq<string>, readers: map<string, Value>): (parts: seq<string>)
    requires forall i :: 0 <= i < |source| ==> source[i] in readers
    ensures |parts| == |source|
  {
    seq(|source|, i requires 0 <= i < |source| => ToS(readers[source[i]]))
  }

  /** The digest input is exactly `Array#join("")` of the rendered values. */
  lemma {:induction false} DigestStringIsJoin(source: seq<string>, readers: map<string, Value>)
    requires forall i :: 0 <= i < |source| ==> source[i] in readers
    ensures DigestString(source, readers) == Ok(Join(Rendered(source, readers), ""))
  {
    var parts := Rendered(source, readers);
    if |source| == 1 {
      assert DigestString(source[1..], readers) == Ok("");
      assert DigestString(source, readers) == Ok(parts[0] + "");
      assert parts[0] + "" == parts[0];
    } else if |source| > 1 {
      DigestStringIsJoin(source[1..], readers);
      assert parts[1..] == Rendered(source[1..], readers);
      assert DigestString(source, readers) == Ok(parts[0] + Join(parts[1..], ""));
      assert Join(parts, "") == parts[0] + "" + Join(parts[1..], "");
      assert parts[0] + "" + Join(parts[1..], "") == parts[0] + Join(parts[1..], "");
    }
  }

  /** Concatenation follows declared order: the input of `a + b` is the input
      of `a` followed by the input of `b`. */
  lemma {:induction false} DigestStringAppend(a: seq<string>, b: seq<string>, readers: map<string, Value>)
    requires DigestString(a, readers).Ok? && DigestString(b, readers).Ok?
    ensures DigestString(a + b, readers)
         == Ok(DigestString(a, readers).value + DigestString(b, readers).value)
  {
    if a != [] {
      var ab := a + b;
      assert ab[0] == a[0] && ab[1..] == a[1..] + b;
      var rest := DigestString(a[1..], readers);
      assert a[0] in readers && rest.Ok?;
      DigestStringAppend(a[1..], b, readers);
      var head := ToS(readers[a[0]]);
      var x, y := rest.value, DigestString(b, readers).value;
      assert DigestString(a, readers) == Ok(head + x);
      assert DigestString(a[1..] + b, readers) == Ok(x + y);
      assert DigestString(ab, readers) == Ok(head + (x + y));
      assert head + (x + y) == (head + x) + y;
    } else {
      assert a + b == b;
      assert DigestString(a, readers).value + DigestString(b, readers).value == DigestString(b, readers).value;
    }
  }

  /** Two instance states that agree on the readers named by `source` give
      the same input: the input is re-read from the current values of the
      source fields and from nothing else. */
  lemma {:induction false} DigestStringFrame(source: seq<string>, r1: map<string, Value>, r2: map<string, Value>)
    requires forall i :: 0 <= i < |source| ==> (source[i] in r1 <==> source[i] in r2)
    requires forall i :: 0 <= i < |source| && source[i] in r1 ==> r1[source[i]] == r2[source[i]]
    ensures DigestString(source, r1) == DigestString(source, r2)
  {
    if source != [] {
      DigestStringFrame(source[1..], r1, r2);
    }
  }

  /** `calculate_checksum`: the digest of `value` with the resolved
      `Digest::<constant>` class, in the selected format. */
  function CalculateChecksum(lib: Library, constant: string, value: string, format: Option<string>): (r: string)
    ensures format == Some("binary") ==> r == lib.digest(constant, value)
    ensures format == Some("base64") ==> r == lib.base64(lib.digest(constant, value))
    ensures format == Some("bubblebabble") ==> r == lib.bubblebabble(lib.digest(constant, value))
    ensures format !in {Some("binary"), Some("base64"), Some("bubblebabble")} ==> r == lib.hex(lib.digest(constant, value))
  {
    Encode(lib, ChecksumEncoding(format), lib.digest(constant, value))
  }

  /** The key of `calculate_signature`, as the string `to_s` gives: a Symbol
      is sent to the instance (a method it does not respond to raises), a Proc
      is called, anything else is used as it is. */
  function ResolveKey(key: KeySpec, readers: map<string, Value>): (r: Result<string>)
    ensures r.Err? <==> key.KeyMethod? && key.name !in readers
    ensures r.Err? ==> r.error == UnknownKeyMethod(key.name)
    ensures key.KeyMethod? && key.name in readers ==> r == Ok(ToS(readers[key.name]))
    ensures key.KeyProc? ==> r == Ok(ToS(key.call()))
    ensures key.KeyLiteral? ==> r == Ok(key.literal)
  {
    match key
    case KeyMethod(name) =>
      if name in readers then Ok(ToS(readers[name])) else Err(UnknownKeyMethod(name))
    case KeyProc(call) => Ok(ToS(call()))
    case KeyLiteral(literal) => Ok(literal)
  }

  /** `calculate_signature`: HMAC with the resolved `OpenSSL::Digest` and the
      key's string form, binary or hex. */
  function CalculateSignature(lib: Library, digest: string, value: string, format: Option<string>,
                              key: KeySpec, readers: map<string, Value>): (r: Result<string>)
    ensures r.Err? <==> ResolveKey(key, readers).Err?
    ensures r.Err? ==> r.error == UnknownKeyMethod(key.name)
    ensures r.Ok? && format == Some("binary") ==> r.value == lib.hmac(digest, ResolveKey(key, readers).value, value)
    ensures r.Ok? && format != Some("binary") ==> r.value == lib.hex(lib.hmac(digest, ResolveKey(key, readers).value, value))
  {
    var k :- ResolveKey(key, readers);
    Ok(Encode(lib, SignatureEncoding(format), lib.hmac(digest, k, value)))
  }

  /** The algorithm resolution of `has_checksum`: a callable is kept; anything
      else is upcased and looked up with `Digest.const_get`, and every failure
      (an unknown constant, or a value with no `upcase`) is reported as an
      unknown algorithm carrying the offending value. */
  function ResolveChecksumAlgorithm(lib: Library, alg: Algorithm): (r: Result<Algorithm>)
    ensures alg.Callable? ==> r == Ok(alg)
    ensures alg.Name? ==> (r.Ok? <==> lib.digestConst(Upcase(alg.name)))
    ensures r.Ok? ==> r.value.Callable? || (r.value.DigestClass? && lib.digestConst(r.value.constant))
    ensures alg.Name? && r.Ok? ==> r.value == DigestClass(Upcase(alg.name))
    ensures alg.DigestClass? || alg.OpenSSLDigest? ==> r == Err(UnknownAlgorithm(alg))
    ensures r.Err? ==> r.error == UnknownAlgorithm(alg)
  {
    match alg
    case Callable(_) => Ok(alg)
    case Name(name) =>
      if lib.digestConst(Upcase(name)) then Ok(DigestClass(Upcase(name))) else Err(UnknownAlgorithm(alg))
    case _ => Err(UnknownAlgorithm(alg))
  }

  /** The algorithm resolution of `has_signature`: a callable is kept; a name
      goes through `OpenSSL::Digest.new`, whose RuntimeError becomes an unknown
      algorithm; an `OpenSSL::Digest` is accepted again as it is, and a
      `Digest` class is refused with a TypeError that is not rescued. */
  function ResolveSignatureAlgorithm(lib: Library, alg: Algorithm): (r: Result<Algorithm>)
    ensures alg.Callable? || alg.OpenSSLDigest? ==> r == Ok(alg)
    ensures alg.Name? ==> (r.Ok? <==> lib.opensslName(alg.name))
    ensures r.Ok? ==> r.value.Callable? || r.value.OpenSSLDigest?
    ensures alg.Name? && r.Ok? ==> r.value == OpenSSLDigest(alg.name)
    ensures alg.Name? && r.Err? ==> r.error == UnknownAlgorithm(alg)
    ensures alg.DigestClass? ==> r == Err(NotADigest(alg))
    ensures r.Err? ==> r.error == UnknownAlgorithm(alg) || r.error == NotADigest(alg)
  {
    match alg
    case Callable(_) => Ok(alg)
    case OpenSSLDigest(_) => Ok(alg)
    case Name(name) =>
      if lib.opensslName(name) then Ok(OpenSSLDigest(name)) else Err(UnknownAlgorithm(alg))
    case DigestClass(_) => Err(NotADigest(alg))
  }

  /** The body `define_method` gives the accessor, with what it captured. */
  datatype Accessor =
    | Transform(source: seq<string>, transform: string -> string)
    | ChecksumOf(source: seq<string>, constant: string, format: Option<string>)
    | SignatureOf(source: seq<string>, digest: string, format: Option<string>, key: KeySpec)

  /** Names the accessor sends to the instance when it runs. */
  function ReadSet(acc: Accessor): (names: set<string>)
    ensures forall i :: 0 <= i < |acc.source| ==> acc.source[i] in names
  {
    (set i | 0 <= i < |acc.source| :: acc.source[i])
      + (if acc.SignatureOf? && acc.key.KeyMethod? then {acc.key.name} else {})
  }

  /** Calling a generated accessor on an instance whose readers currently
      return `readers`. The digest input is read first; a transform is applied
      to it directly, with neither format nor key. */
  function Call(lib: Library, acc: Accessor, readers: map<string, Value>): (r: Result<string>)
    ensures DigestString(acc.source, readers).Err? ==> r == Err(DigestString(acc.source, readers).error)
    ensures r.Err? ==>
      r.error.NoMethod? || (acc.SignatureOf? && acc.key.KeyMethod? && r.error == UnknownKeyMethod(acc.key.name))
    ensures acc.Transform? && DigestString(acc.source, readers).Ok?
            ==> r == Ok(acc.transform(DigestString(acc.source, readers).value))
  {
    var input :- DigestString(acc.source, readers);
    match acc
    case Transform(_, f) => Ok(f(input))
    case ChecksumOf(_, constant, format) => Ok(CalculateChecksum(lib, constant, input, format))
    case SignatureOf(_, digest, format, key) => CalculateSignature(lib, digest, input, format, key, readers)
  }

  /** The accessor depends on the instance only through the readers it sends
      to: it is re-evaluated from current state on every call, and two states
      that agree on those readers give the same answer. */
  lemma CallFrame(lib: Library, acc: Accessor, r1: map<string, Value>, r2: map<string, Value>)
    requires forall n :: n in ReadSet(acc) ==> (n in r1 <==> n in r2)
    requires forall n :: n in ReadSet(acc) && n in r1 ==> r1[n] == r2[n]
    ensures Call(lib, acc, r1) == Call(lib, acc, r2)
  {
    DigestStringFrame(acc.source, r1, r2);
  }

  /** A signature re-reads a Symbol key on every call: for fixed source fields
      it is the HMAC under the key reader's current value. */
  lemma SignatureUsesCurrentKey(lib: Library, source: seq<string>, digest: string, format: Option<string>,
                                name: string, readers: map<string, Value>)
    requires DigestString(source, readers).Ok?
    ensures var r := Call(lib, SignatureOf(source, digest, format, KeyMethod(name)), readers);
      && (r.Ok? <==> name in readers)
      && (name in readers ==> r.value == Encode(lib, SignatureEncoding(format),
                                                lib.hmac(digest, ToS(readers[name]), DigestString(source, readers).value)))
  {
  }

  /** A Proc key is called afresh on every call, with no arguments, and the
      signature is the HMAC under the `to_s` of what it returns. */
  lemma SignatureUsesProcKey(lib: Library, source: seq<string>, digest: string, format: Option<string>,
                             p: () -> Value, readers: map<string, Value>)
    requires DigestString(source, readers).Ok?
    ensures Call(lib, SignatureOf(source, digest, format, KeyProc(p)), readers)
         == Ok(Encode(lib, SignatureEncoding(format), lib.hmac(digest, ToS(p()), DigestString(source, readers).value)))
  {
  }

  /** Any other key is used as it is: the signature is the HMAC under the
      literal, whatever the instance holds. */
  lemma SignatureUsesLiteralKey(lib: Library, source: seq<string>, digest: string, format: Option<string>,
                                literal: string, readers: map<string, Value>)
    requires DigestString(source, readers).Ok?
    ensures Call(lib, SignatureOf(source, digest, format, KeyLiteral(literal)), readers)
         == Ok(Encode(lib, SignatureEncoding(format), lib.hmac(digest, literal, DigestString(source, readers).value)))
  {
  }
}
