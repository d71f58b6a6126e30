/**
 * Identifiers made of characters drawn at random from a code set: the default and the
 * hexadecimal code sets, the defaulting of the code set and length, and the generation.
 */
module Uuids {

  /** The default code set: digits, both cases of letters, and punctuation. */
  const AlphabetSuperset: seq<char> := [
    '0', '1', '2', '3', '4', '5', '6', '7', '8', '9', 'a', 'b', 'c', 'd', 'e', 'f', 'g', 'h', 'i', 'j', 'k', 'l',
    'm', 'n', 'o', 'p', 'q', 'r', 's', 't', 'u', 'v', 'w', 'x', 'y', 'z', 'A', 'B', 'C', 'D', 'E', 'F', 'G', 'H',
    'I', 'J', 'K', 'L', 'M', 'N', 'O', 'P', 'Q', 'R', 'S', 'T', 'U', 'V', 'W', 'X', 'Y', 'Z', '\'', '!', '@', '#',
    '$', '%', '^', '&', '*', '(', ')', '_', '+', '|', '{', '}', '[', ']', '-', '=', '/', ',', '.', '?', ':', ';']

  const Hexadecimal: seq<char> := ['0', '1', '2', '3', '4', '5', '6', '7', '8', '9', 'a', 'b', 'c', 'd', 'e', 'f']

  const HexadecimalUpper: seq<char> := ['0', '1', '2', '3', '4', '5', '6', '7', '8', '9', 'A', 'B', 'C', 'D', 'E', 'F']

  /** The default number of characters. */
  const DefaultLength: nat := 20

  datatype Option<T> = None | Some(value: T)

  /** The code set kept: the one given, unless it is null or empty. */
  function ChosenCodes(codes: Option<seq<char>>): (c: seq<char>)
    ensures |c| > 0
    ensures codes.Some? && |codes.value| > 0 ==> c == codes.value
    ensures codes.None? || codes.value == [] ==> c == AlphabetSuperset
  {
    if codes.Some? && |codes.value| > 0 then codes.value else AlphabetSuperset
  }

  /** The length kept: the one given, unless it is not positive. */
  function ChosenLength(length: int): (n: nat)
    ensures n > 0
    ensures length > 0 ==> n == length
    ensures length <= 0 ==> n == DefaultLength
  {
    if length > 0 then length else DefaultLength
  }

  /** The identifier drawn: its i-th character is the code at the i-th draw, a number below the code count. */
  function Drawn(codes: seq<char>, length: nat, draw: nat -> nat): (u: string)
    requires |codes| > 0
    ensures |u| == length
    ensures forall i :: 0 <= i < length ==> u[i] == codes[draw(i) % |codes|]
  {
    seq(length, i requires 0 <= i < length => codes[draw(i) % |codes|])
  }

  /** Every character of a drawn identifier comes from the code set. */
  lemma DrawnFromCodes(codes: seq<char>, length: nat, draw: nat -> nat)
    requires |codes| > 0
    ensures forall i :: 0 <= i < length ==> Drawn(codes, length, draw)[i] in codes
  {
    forall i | 0 <= i < length
      ensures Drawn(codes, length, draw)[i] in codes
    {
      var k := draw(i) % |codes|;
      assert Drawn(codes, length, draw)[i] == codes[k];
    }
  }

  /** `generateUuid`: length picks from the code set, appended in order. */
  method GenerateUuid(codes: seq<char>, length: nat, draw: nat -> nat) returns (u: string)
    requires |codes| > 0
    ensures u == Drawn(codes, length, draw)
  {
    var len := |codes|;
    var sb: string := [];
    var i := 0;
    while i < length
      invariant 0 <= i <= length
      invariant |sb| == i && forall j :: 0 <= j < i ==> sb[j] == codes[draw(j) % len]
    {
      sb := sb + [codes[draw(i) % len]];
      i := i + 1;
    }
    u := sb;
  }

  /** `String.toUpperCase` on the characters a random UUID is printed with. */
  function ToUpper(s: string): (u: string)
    ensures |u| == |s|
    ensures forall i :: 0 <= i < |s| ==> !('a' <= u[i] <= 'z')
    ensures forall i :: 0 <= i < |s| ==> ('a' <= s[i] <= 'z' ==> u[i] as int == s[i] as int - 32) && (!('a' <= s[i] <= 'z') ==> u[i] == s[i])
  {
    seq(|s|, i requires 0 <= i < |s| => if 'a' <= s[i] <= 'z' then (s[i] as int - 32) as char else s[i])
  }

  class JPPFUuid {
    const uuid: string
    const codes: seq<char>
    const length: nat

    /** The constructor without arguments: a random UUID, in upper case. */
    constructor Random(randomUuid: string)
      ensures uuid == ToUpper(randomUuid) && codes == AlphabetSuperset && length == DefaultLength
    {
      uuid := ToUpper(randomUuid);
      codes := AlphabetSuperset;
      length := DefaultLength;
    }

    /** The constructor with a code set and a length, each kept only when usable; the identifier is then generated. */
    constructor(codes: Option<seq<char>>, length: int, draw: nat -> nat)
      ensures this.codes == ChosenCodes(codes) && this.length == ChosenLength(length)
      ensures uuid == Drawn(this.codes, this.length, draw)
      ensures |uuid| == this.length && forall i :: 0 <= i < |uuid| ==> uuid[i] in this.codes
    {
      var c := ChosenCodes(codes);
      var n := ChosenLength(length);
      DrawnFromCodes(c, n, draw);
      this.codes := c;
      this.length := n;
      var u := GenerateUuid(c, n, draw);
      uuid := u;
    }

    /** `toString`: the identifier, which never changes. */
    function ToString(): (s: string)
      ensures s == uuid
    {
      uuid
    }
  }
}
