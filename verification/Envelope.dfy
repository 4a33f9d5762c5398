/** The stored form of a sealed key, and sealing itself over an abstract authenticated cipher. */
module Envelope {
  import opened Options
  import opened Sequences
  import opened Text
  import opened Base64

  const VERSION := "v1"
  const MALFORMED := "Stored credential envelope is malformed"
  const UNREADABLE := "Stored credential could not be decrypted"

  datatype Envelope = Envelope(nonce: seq<Byte>, ciphertext: seq<Byte>)

  function Serialize(e: Envelope): string {
    Join([VERSION, Encode(e.nonce), Encode(e.ciphertext)], ":")
  }

  function Parse(raw: string): Result<Envelope> {
    var parts := Split(raw, ':');
    if |parts| != 3 || parts[0] != VERSION then Err(MALFORMED)
    else
      var nonce, ciphertext := Decode(parts[1]), Decode(parts[2]);
      if nonce.None? || ciphertext.None? then Err(MALFORMED)
      else Ok(Envelope(nonce.value, ciphertext.value))
  }

  lemma JoinThree(a: string, b: string, c: string)
    ensures Join([a, b, c], ":") == a + ":" + (b + ":" + c)
  {
    assert [a, b, c][1..] == [b, c] && [b, c][1..] == [c];
    assert Join([c], ":") == c;
    assert Join([b, c], ":") == b + ":" + c;
  }

  lemma SplitThree(a: string, b: string, c: string)
    requires ':' !in a && ':' !in b && ':' !in c
    ensures Split(Join([a, b, c], ":"), ':') == [a, b, c]
  {
    JoinThree(a, b, c);
    SplitNone(a, ':');
    SplitAppend(a, b + ":" + c, ':');
    SplitNone(b, ':');
    SplitAppend(b, c, ':');
    SplitNone(c, ':');
  }

  lemma SerializedParts(e: Envelope)
    ensures Split(Serialize(e), ':') == [VERSION, Encode(e.nonce), Encode(e.ciphertext)]
  {
    EncodeShape(e.nonce);
    EncodeShape(e.ciphertext);
    SplitThree(VERSION, Encode(e.nonce), Encode(e.ciphertext));
  }

  /** Parsing inverts serialising, for every nonce and ciphertext. */
  lemma ParseSerialize(e: Envelope)
    ensures Parse(Serialize(e)) == Ok(e)
  {
    SerializedParts(e);
    DecodeEncode(e.nonce);
    DecodeEncode(e.ciphertext);
  }

  lemma SerializeIsInjective(e: Envelope, f: Envelope)
    requires Serialize(e) == Serialize(f)
    ensures e == f
  {
    ParseSerialize(e);
    ParseSerialize(f);
  }

  /** Parsing reads more than it writes: a stray character outside the alphabet changes nothing. */
  lemma StrayCharactersAreAccepted(e: Envelope, c: char)
    requires c as int < 128 && c != PAD && c != ':' && Value(c).None?
    ensures Parse(Serialize(e) + [c]) == Ok(e)
    ensures Serialize(e) + [c] != Serialize(e)
  {
    var n, k := Encode(e.nonce), Encode(e.ciphertext);
    var raw := Serialize(e) + [c];
    SerializedParts(e);
    DecodeEncode(e.nonce);
    DecodeEncode(e.ciphertext);
    EncodeShape(e.ciphertext);
    JunkIsSkipped(k, c, [], 0, 0, 0);
    assert k + [c] + [] == k + [c] && k + [] == k;
    JoinAnother(e, c);
    assert |raw| == |Serialize(e)| + 1;
  }

  lemma JoinAnother(e: Envelope, c: char)
    requires c != ':'
    ensures Split(Serialize(e) + [c], ':') == [VERSION, Encode(e.nonce), Encode(e.ciphertext) + [c]]
  {
    var n, k := Encode(e.nonce), Encode(e.ciphertext);
    EncodeShape(e.nonce);
    EncodeShape(e.ciphertext);
    JoinThree(VERSION, n, k);
    JoinThree(VERSION, n, k + [c]);
    Assoc(VERSION + ":", n + ":" + k, [c]);
    Assoc(n + ":", k, [c]);
    SplitThree(VERSION, n, k + [c]);
  }

  /**
   * Reading is exact for exactly these texts: three parts between colons, the version first, the other two
   * canonical Base 64. Whatever else is accepted would be written back differently.
   */
  lemma ReadingIsExactExactlyWhen(raw: string)
    ensures Parse(raw).Ok? && Serialize(Parse(raw).value) == raw <==>
      var parts := Split(raw, ':');
      |parts| == 3 && parts[0] == VERSION && Canonical(parts[1]) && Canonical(parts[2])
  {
    hide Decode, Encode, Canonical;
    var parts := Split(raw, ':');
    if Parse(raw).Ok? {
      var e := Parse(raw).value;
      SerializedParts(e);
      CanonicalIsReadExactly(parts[1]);
      CanonicalIsReadExactly(parts[2]);
    }
    if |parts| == 3 && parts[0] == VERSION && Canonical(parts[1]) && Canonical(parts[2]) {
      CanonicalIsReadExactly(parts[1]);
      CanonicalIsReadExactly(parts[2]);
      JoinSplit(raw, ':');
      assert parts == [VERSION, parts[1], parts[2]];
    }
  }

  // -------------------------------------------------------------------- sealing

  /** An authenticated cipher under one fixed key: nonce, text and associated data. */
  datatype Cipher = Cipher(seal: (seq<Byte>, string, string) -> seq<Byte>,
                           open: (seq<Byte>, seq<Byte>, string) -> Option<string>)

  /** What AES-GCM gives under one key: opening inverts sealing for the same nonce and data. */
  ghost predicate Faithful(cipher: Cipher) {
    forall nonce: seq<Byte>, text: string, data: string ::
      cipher.open(nonce, cipher.seal(nonce, text, data), data) == Some(text)
  }

  function Encrypt(cipher: Cipher, nonce: seq<Byte>, plaintext: string, data: string): Result<string> {
    if plaintext == [] then Err("Refusing to encrypt an empty secret")
    else Ok(Serialize(Envelope(nonce, cipher.seal(nonce, plaintext, data))))
  }

  function Decrypt(cipher: Cipher, envelope: string, data: string): Result<string> {
    match Parse(envelope)
    case Err(message) => Err(message)
    case Ok(parsed) =>
      match cipher.open(parsed.nonce, parsed.ciphertext, data)
      case None => Err(UNREADABLE)
      case Some(plaintext) => Ok(plaintext)
  }

  /** A sealed key opens to itself, and its stored form is never the empty string that means "no key". */
  lemma DecryptEncrypt(cipher: Cipher, nonce: seq<Byte>, plaintext: string, data: string)
    requires Faithful(cipher) && plaintext != []
    ensures var sealed := Encrypt(cipher, nonce, plaintext, data);
      sealed.Ok? && sealed.value != [] && Decrypt(cipher, sealed.value, data) == Ok(plaintext)
  {
    var e := Envelope(nonce, cipher.seal(nonce, plaintext, data));
    ParseSerialize(e);
    assert Serialize(e) != [] by {
      assert Split([], ':') == [[]];
      SerializedParts(e);
    }
  }

  /** Sealing refuses the empty key and nothing else. */
  lemma OnlyEmptyIsRefused(cipher: Cipher, nonce: seq<Byte>, plaintext: string, data: string)
    ensures Encrypt(cipher, nonce, plaintext, data).Err? <==> plaintext == ""
  {
  }

  /** Opening fails exactly if the stored form does not parse or the cipher does not open what it holds. */
  lemma OpeningFailsExactlyWhen(cipher: Cipher, envelope: string, data: string)
    ensures Decrypt(cipher, envelope, data).Err? <==>
      Parse(envelope).Err? || cipher.open(Parse(envelope).value.nonce, Parse(envelope).value.ciphertext, data).None?
    ensures Parse(envelope).Err? <==>
      var parts := Split(envelope, ':');
      |parts| != 3 || parts[0] != "v1" || Decode(parts[1]).None? || Decode(parts[2]).None?
  {
    hide Decode;
  }

  /** The secret box as the store sees it: nonce, text and data in, stored form out, and back. */
  datatype SecretBox = SecretBox(encrypt: (seq<Byte>, string, string) -> Result<string>,
                                 decrypt: (string, string) -> Result<string>)

  /** Every key is sealed into something that opens to it under the same data, and never into "no key". */
  ghost predicate Seals(box: SecretBox) {
    forall nonce: seq<Byte>, plaintext: string, data: string | plaintext != [] ::
      var sealed := box.encrypt(nonce, plaintext, data);
      sealed.Ok? && sealed.value != [] && box.decrypt(sealed.value, data) == Ok(plaintext)
  }

  function BoxOf(cipher: Cipher): SecretBox {
    SecretBox((nonce, plaintext, data) => Encrypt(cipher, nonce, plaintext, data),
              (envelope, data) => Decrypt(cipher, envelope, data))
  }

  /** The box over an authenticated cipher and the serialised envelope is such a box. */
  lemma EnvelopeBoxSeals(cipher: Cipher)
    requires Faithful(cipher)
    ensures Seals(BoxOf(cipher))
  {
    hide Encrypt, Decrypt, Faithful;
    var box := BoxOf(cipher);
    forall nonce: seq<Byte>, plaintext: string, data: string | plaintext != []
      ensures var sealed := box.encrypt(nonce, plaintext, data);
        sealed.Ok? && sealed.value != [] && box.decrypt(sealed.value, data) == Ok(plaintext)
    {
      DecryptEncrypt(cipher, nonce, plaintext, data);
    }
  }

  /** The display hint: stars, and the last four characters of a key longer than eight. */
  function MaskedHint(plaintext: string): (r: string)
    ensures r == [] <==> plaintext == []
    ensures |r| <= 8
    ensures 0 < |plaintext| <= 8 ==> r == "****"
    ensures |plaintext| > 8 ==> StartsWith(r, "****") && r[4..] == plaintext[|plaintext| - 4..]
  {
    if plaintext == [] then []
    else if |plaintext| > 8 then "****" + plaintext[|plaintext| - 4..]
    else "****"
  }
}
