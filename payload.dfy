/** The argument values a transaction payload is built from, the encoding of
    each argument into its textual form, and the `@`-join of the parts.

    The encoding of one argument (hex of a string's bytes, minimal big-endian
    hex of an integer, hex of an address's public key) belongs to the
    blockchain SDK and is not modelled: every operation takes the encoder as
    a parameter `enc`, and the test vectors of the repository are stated as a
    hypothesis on it. */
module Payload {

  /** An address, identified by its bech32 form. */
  datatype Address = Address(bech32: string)

  /** One value handed to the SDK's argument serializer. */
  datatype Arg = Str(s: string) | Int(n: int) | Addr(address: Address)

  /** The SDK's `arg_to_string`, left abstract. */
  type Encoder = Arg -> string

  /** The SDK's `args_to_strings`: the encoder applied to every argument, in order. */
  function EncodeAll(enc: Encoder, args: seq<Arg>): (r: seq<string>)
    ensures |r| == |args|
    ensures forall i :: 0 <= i < |args| ==> r[i] == enc(args[i])
  {
    if args == [] then [] else [enc(args[0])] + EncodeAll(enc, args[1..])
  }

  /** The payload data: the parts separated by `@`. */
  function Join(parts: seq<string>): (r: string)
    ensures parts == [] ==> r == ""
    ensures |parts| == 1 ==> r == parts[0]
  {
    if parts == [] then ""
    else if |parts| == 1 then parts[0]
    else parts[0] + "@" + Join(parts[1..])
  }

  /** Splits a payload back into its parts at every `@`. */
  function Split(s: string): (r: seq<string>)
    ensures |r| >= 1
  {
    if s == [] then [""]
    else
      var rest := Split(s[1..]);
      if s[0] == '@' then [""] + rest else [[s[0]] + rest[0]] + rest[1..]
  }

  /** A prefix without `@` stays glued to the first part of what follows it. */
  lemma {:induction false} SplitPrefix(p: string, x: string)
    requires '@' !in p
    ensures Split(p + x) == [p + Split(x)[0]] + Split(x)[1..]
  {
    if p != [] {
      assert (p + x)[0] == p[0];
      assert (p + x)[1..] == p[1..] + x;
      SplitPrefix(p[1..], x);
      assert [p[0]] + (p[1..] + Split(x)[0]) == p + Split(x)[0];
    } else {
      assert p + x == x;
      assert p + Split(x)[0] == Split(x)[0];
      assert Split(x) == [Split(x)[0]] + Split(x)[1..];
    }
  }

  /** Parts that contain no `@` are recovered from the joined payload. */
  lemma {:induction false} SplitJoin(parts: seq<string>)
    requires |parts| >= 1
    requires forall i :: 0 <= i < |parts| ==> '@' !in parts[i]
    ensures Split(Join(parts)) == parts
  {
    if |parts| == 1 {
      SplitPrefix(parts[0], "");
      assert parts[0] + "" == parts[0];
    } else {
      var rest := parts[1..];
      SplitJoin(rest);
      var x := "@" + Join(rest);
      assert x[0] == '@' && x[1..] == Join(rest);
      assert Split(x) == [""] + rest;
      SplitPrefix(parts[0], x);
      assert parts[0] + "" == parts[0];
      assert parts[0] + x == Join(parts);
      assert parts == [parts[0]] + rest;
    }
  }

  /** The encoder agrees with the encodings of single arguments that the
      repository's payload tests pin. */
  ghost predicate PinnedByTests(enc: Encoder)
  {
    && enc(Str("MyToken")) == "4d79546f6b656e"
    && enc(Str("MTK")) == "4d544b"
    && enc(Int(1000000)) == "0f4240"
    && enc(Int(3)) == "03"
    && enc(Str("true")) == "74727565"
    && enc(Str("canPause")) == "63616e5061757365"
    && enc(Str("canBurn")) == "63616e4275726e"
    && enc(Str("canUpgrade")) == "63616e55706772616465"
    && enc(Str("canTransferNFTCreateRole")) == "63616e5472616e736665724e4654437265617465526f6c65"
  }

  /** An encoder that maps each pinned argument to its pinned encoding. */
  function PinnedEncoder(a: Arg): string
  {
    match a
    case Int(n) => if n == 3 then "03" else "0f4240"
    case Addr(_) => ""
    case Str(s) =>
      if s == "MyToken" then "4d79546f6b656e"
      else if s == "MTK" then "4d544b"
      else if s == "true" then "74727565"
      else if s == "canPause" then "63616e5061757365"
      else if s == "canBurn" then "63616e4275726e"
      else if s == "canUpgrade" then "63616e55706772616465"
      else "63616e5472616e736665724e4654437265617465526f6c65"
  }

  /** The test vectors are consistent: some encoder agrees with all of them. */
  lemma TestVectorsConsistent()
    ensures exists enc: Encoder :: PinnedByTests(enc)
  {
    assert PinnedByTests(PinnedEncoder);
  }
}
