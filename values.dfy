/** Shared vocabulary of the has_checksum model: Ruby values as the library sees
    them, its error conditions, algorithm and key specifications, and the
    cryptographic library it calls into (kept opaque). */
module Values {

  datatype Option<+T> = None | Some(value: T)

  /** The outcome of an operation that may raise one of the library's errors. */
  datatype Result<+T> = Ok(value: T) | Err(error: Error) {
    predicate IsFailure() { Err? }

    function PropagateFailure<U>(): Result<U>
      requires Err?
    {
      Err(error)
    }

    function Extract(): T
      requires Ok?
    {
      value
    }
  }

  /** Pass or raise, for operations that return nothing. */
  datatype Outcome = Pass | Fail(error: Error)

  /** The value a reader returns. Values are taken as already rendered by
      `to_s`; `nil` is kept apart because it renders as the empty string. */
  datatype Value = Nil | Str(s: string)

  /** Ruby's `to_s`, as used by `Array#join` and by `key.to_s`. */
  function ToS(v: Value): string
  {
    match v
    case Nil => ""
    case Str(s) => s
  }

  /** What `options[:algorithm]` can hold: a name still to be resolved, a
      callable transform, or (after `has_checksum` / `has_signature` rewrote
      the Hash) a resolved `Digest::<CONST>` class or `OpenSSL::Digest`. */
  datatype Algorithm =
    | Name(name: string)
    | Callable(call: string -> string)
    | DigestClass(constant: string)
    | OpenSSLDigest(digest: string)

  /** The `:key` option of a signature: a Symbol naming an instance method, a
      Proc called with no arguments, or any other (truthy) literal, given here
      by its `to_s`. */
  datatype KeySpec =
    | KeyMethod(name: string)
    | KeyProc(call: () -> Value)
    | KeyLiteral(literal: string)

  /** The errors the library raises. The first six are raised while a class
      is being declared; the last two only when an accessor runs. */
  datatype Error =
    | ConfigRequired                       // "config required"
    | NoColumns                            // "no column(s) specified"
    | NonNameSource                        // an options Hash left among the source fields
    | KeyRequired                          // "key option required to calculate a signature"
    | UnknownAlgorithm(alg: Algorithm)     // "unknown algorithm '<alg>'"
    | NotADigest(alg: Algorithm)           // TypeError from OpenSSL::Digest.new
    | UnknownKeyMethod(name: string)       // "key option refers to an unknown method '<name>'"
    | NoMethod(name: string)               // NoMethodError from public_send

  /** The cryptographic library, left uninterpreted. `digestConst` says which
      constant names `Digest.const_get` resolves, `opensslName` which names
      `OpenSSL::Digest.new` accepts; `digest` and `hmac` give raw (binary)
      output, and the three encoders turn raw output into text. */
  datatype Library = Library(
    digestConst: string -> bool,
    opensslName: string -> bool,
    digest: (string, string) -> string,
    hmac: (string, string, string) -> string,
    hex: string -> string,
    base64: string -> string,
    bubblebabble: string -> string)

  /** ASCII `String#upcase` on one character: a lower-case letter becomes
      its upper-case letter (32 code points lower), anything else stays. */
  function UpcaseChar(c: char): (u: char)
    ensures 'a' <= c <= 'z' ==> 'A' <= u <= 'Z' && u as int == c as int - 32
    ensures !('a' <= c <= 'z') ==> u == c
  {
    if 'a' <= c <= 'z' then (c as int - 32) as char else c
  }

  /** ASCII `String#upcase`. */
  function Upcase(s: string): (r: string)
    ensures |r| == |s|
    ensures forall i :: 0 <= i < |s| ==> r[i] == UpcaseChar(s[i])
  {
    if s == [] then [] else [UpcaseChar(s[0])] + Upcase(s[1..])
  }

  /** `Array#join(sep)` over strings. */
  function Join(parts: seq<string>, sep: string): string
  {
    if |parts| == 0 then ""
    else if |parts| == 1 then parts[0]
    else parts[0] + sep + Join(parts[1..], sep)
  }
}
