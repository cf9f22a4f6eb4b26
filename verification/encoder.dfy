/**
  The text-to-Morse transformation run on every change of the text box:
  upper-case the input, look each character up in the table (the empty token
  when it is not there) and join the tokens with one space. `Decode` is its
  inverse, used to state the round trip.
 */
module Encoder {
  import opened Wrappers
  import opened MorseTable
  import opened Delimited

  /** The characters an encoding may contain. */
  const MorseAlphabet: set<char> := {'.', '-', '/', ' '}

  /** The input as the text box shows it after a change: upper-cased character by character. */
  function UpperString(s: string): string
  {
    seq(|s|, i requires 0 <= i < |s| => Upper(s[i]))
  }

  /** One token per character of `u`, in order. */
  function Tokens(u: string): seq<string>
  {
    seq(|u|, i requires 0 <= i < |u| => TokenOf(u[i]))
  }

  /** The Morse string shown for the text `text`. */
  function Encode(text: string): string
  {
    Join(Tokens(UpperString(text)), ' ')
  }

  /** The key of every field, in order; `None` as soon as one field is not a token. */
  function DecodeFields(fields: seq<string>): (r: Option<string>)
    ensures r.Some? ==> |r.value| == |fields|
    ensures r.Some? ==> forall k :: 0 <= k < |fields| ==> Lookup(r.value[k]) == Some(fields[k])
    ensures r.None? <==> exists k :: 0 <= k < |fields| && CharOf(fields[k]).None?
  {
    if |fields| == 0 then Some("")
    else
      match (CharOf(fields[0]), DecodeFields(fields[1..]))
      case (Some(c), Some(rest)) => Some([c] + rest)
      case (None, _) => None
      case (_, None) => None
  }

  /** The text a Morse string stands for: the empty string, or space-separated tokens. */
  function Decode(morse: string): Option<string>
  {
    if morse == "" then Some("") else DecodeFields(Split(morse, ' '))
  }

  /** Empty text has the empty encoding. */
  lemma EncodeEmpty()
    ensures Encode("") == ""
  {
  }

  /** Every token is free of the space that delimits them. */
  lemma TokensUndelimited(u: string)
    ensures forall k :: 0 <= k < |Tokens(u)| ==> ' ' !in Tokens(u)[k]
  {
    forall k | 0 <= k < |u|
      ensures ' ' !in TokenOf(u[k])
    {
      if IsKey(u[k]) && u[k] != ' ' {
        assert IsSignal(TokenOf(u[k]));
      }
    }
  }

  /**
    Non-empty text of length n encodes to exactly n space-separated fields,
    field k being the token of the upper case of character k, or empty when
    that character is not in the table.
   */
  lemma EncodeFields(text: string)
    requires |text| > 0
    ensures |Split(Encode(text), ' ')| == |text|
    ensures forall k :: 0 <= k < |text| ==> Split(Encode(text), ' ')[k] == TokenOf(Upper(text[k]))
  {
    TokensUndelimited(UpperString(text));
    SplitJoin(Tokens(UpperString(text)), ' ');
  }

  /** An encoding is made of dots, dashes, slashes and spaces only. */
  lemma EncodeAlphabet(text: string)
    ensures Over(Encode(text), MorseAlphabet)
  {
    var toks := Tokens(UpperString(text));
    forall k | 0 <= k < |toks|
      ensures Over(toks[k], MorseAlphabet)
    {
      var c := UpperString(text)[k];
      if IsKey(c) && c != ' ' {
        assert IsSignal(toks[k]);
      }
    }
    JoinOver(toks, ' ', MorseAlphabet);
  }

  /** Two texts that agree up to letter case have the same encoding. */
  lemma EncodeCaseInsensitive(s: string, t: string)
    requires |s| == |t|
    requires forall i :: 0 <= i < |s| ==> Upper(s[i]) == Upper(t[i])
    ensures Encode(s) == Encode(t)
  {
    assert UpperString(s) == UpperString(t);
  }

  /** Upper-casing the text first changes neither the text's upper case nor its encoding. */
  lemma EncodeUpper(text: string)
    ensures UpperString(UpperString(text)) == UpperString(text)
    ensures Encode(UpperString(text)) == Encode(text)
  {
    forall i | 0 <= i < |text|
      ensures Upper(UpperString(text)[i]) == Upper(text[i])
    {
      UpperIdempotent(text[i]);
    }
    EncodeCaseInsensitive(UpperString(text), text);
  }

  /** Decoding the tokens of upper-case keys recovers the keys. */
  lemma {:induction false} DecodeTokens(u: string)
    requires forall i :: 0 <= i < |u| ==> IsKey(u[i])
    ensures DecodeFields(Tokens(u)) == Some(u)
  {
    if |u| > 0 {
      CharOfToken(u[0]);
      assert Tokens(u)[1..] == Tokens(u[1..]);
      DecodeTokens(u[1..]);
      assert [u[0]] + u[1..] == u;
    }
  }

  /**
    Round trip: when every character upper-cases to a key, decoding the
    encoding gives back the upper-cased text.
   */
  lemma DecodeEncode(text: string)
    requires forall i :: 0 <= i < |text| ==> IsKey(Upper(text[i]))
    ensures Decode(Encode(text)) == Some(UpperString(text))
  {
    var u := UpperString(text);
    if |text| > 0 {
      TokensUndelimited(u);
      SplitJoin(Tokens(u), ' ');
      DecodeTokens(u);
    }
  }

  /**
    The other direction: whatever decodes re-encodes to the same Morse
    string, and the decoded text is already upper case.
   */
  lemma EncodeDecode(morse: string, text: string)
    requires Decode(morse) == Some(text)
    ensures UpperString(text) == text
    ensures Encode(text) == morse
  {
    forall i | 0 <= i < |text|
      ensures Upper(text[i]) == text[i]
    {
      UpperIdempotent(text[i]);
    }
    assert UpperString(text) == text;
    if morse != "" {
      var fields := Split(morse, ' ');
      assert Tokens(text) == fields;
      JoinSplit(morse, ' ');
    }
  }

  /** The encoding of "SOS". */
  lemma EncodeSos()
    ensures Encode("SOS") == "... --- ..."
  {
  }

  /**
    The fields of the encoding of "Hi There!": lower case is upper-cased,
    the space is a word break, and the unmapped `!` keeps an empty field.
   */
  lemma EncodeHiThere()
    ensures Split(Encode("Hi There!"), ' ') == ["....", "..", "/", "-", "....", ".", ".-.", ".", ""]
  {
    UpperHiThere();
    TokensHiThere();
    TokensUndelimited("HI THERE!");
    SplitJoin(Tokens("HI THERE!"), ' ');
  }

  lemma UpperHiThere()
    ensures UpperString("Hi There!") == "HI THERE!"
  {
    var text := "Hi There!";
    forall i | 0 <= i < |text|
      ensures UpperString(text)[i] == "HI THERE!"[i]
    {
    }
  }

  lemma TokensHiThere()
    ensures Tokens("HI THERE!") == ["....", "..", "/", "-", "....", ".", ".-.", ".", ""]
  {
  }
}
