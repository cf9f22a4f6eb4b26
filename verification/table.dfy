/**
  The fixed character-to-Morse table of the translator, the letter case
  normalisation applied before lookup, and the inverse table used to decode.
  Letters, digits and the three punctuation marks carry the codes of the
  International Morse Code (ITU-R Recommendation M.1677-1, Part I, section 1);
  the space character stands for a word break and is written `/`.
 */
module MorseTable {
  import opened Wrappers

  /** A non-empty string of dots and dashes. */
  predicate IsSignal(s: string)
  {
    |s| > 0 && forall i :: 0 <= i < |s| ==> s[i] == '.' || s[i] == '-'
  }

  /**
    The table itself: the token of a key, or `None` for a character the
    table does not hold. Every token is a signal, except the one for space,
    which is exactly `/`; in particular no token is empty or holds a space.
    The keys are exactly `A`-`Z`, `0`-`9`, `.`, `,`, `?` and the space.
   */
  function Lookup(c: char): (r: Option<string>)
    ensures r.Some? <==> ('A' <= c <= 'Z' || '0' <= c <= '9' || c == '.' || c == ',' || c == '?' || c == ' ')
    ensures r.Some? ==> (c == ' ' <==> r.value == "/")
    ensures r.Some? && c != ' ' ==> IsSignal(r.value)
  {
    match c
    case 'A' => Some(".-")
    case 'B' => Some("-...")
    case 'C' => Some("-.-.")
    case 'D' => Some("-..")
    case 'E' => Some(".")
    case 'F' => Some("..-.")
    case 'G' => Some("--.")
    case 'H' => Some("....")
    case 'I' => Some("..")
    case 'J' => Some(".---")
    case 'K' => Some("-.-")
    case 'L' => Some(".-..")
    case 'M' => Some("--")
    case 'N' => Some("-.")
    case 'O' => Some("---")
    case 'P' => Some(".--.")
    case 'Q' => Some("--.-")
    case 'R' => Some(".-.")
    case 'S' => Some("...")
    case 'T' => Some("-")
    case 'U' => Some("..-")
    case 'V' => Some("...-")
    case 'W' => Some(".--")
    case 'X' => Some("-..-")
    case 'Y' => Some("-.--")
    case 'Z' => Some("--..")
    case '1' => Some(".----")
    case '2' => Some("..---")
    case '3' => Some("...--")
    case '4' => Some("....-")
    case '5' => Some(".....")
    case '6' => Some("-....")
    case '7' => Some("--...")
    case '8' => Some("---..")
    case '9' => Some("----.")
    case '0' => Some("-----")
    case '.' => Some(".-.-.-")
    case ',' => Some("--..--")
    case '?' => Some("..--..")
    case ' ' => Some("/")
    case _ => None
  }

  /** The characters the table holds. */
  predicate IsKey(c: char)
  {
    Lookup(c).Some?
  }

  /** The token written for `c`; a character outside the table contributes the empty token. */
  function TokenOf(c: char): string
  {
    match Lookup(c)
    case Some(token) => token
    case None => ""
  }

  /**
    Upper-casing of one character, restricted to the characters whose upper
    case is a key of the table: ASCII `a`-`z`, and the dotless `i` (U+0131)
    and long `s` (U+017F), which upper-case to `I` and `S`. Every other
    character is left as it is.
   */
  function Upper(c: char): char
  {
    if 'a' <= c <= 'z' then (c as int - 32) as char
    else if c == '\U{0131}' then 'I'
    else if c == '\U{017F}' then 'S'
    else c
  }

  /** The inverse table: the key whose token is `token`, if there is one. */
  function CharOf(token: string): (r: Option<char>)
    ensures r.Some? ==> Lookup(r.value) == Some(token)
  {
    match token
    case ".-" => Some('A')
    case "-..." => Some('B')
    case "-.-." => Some('C')
    case "-.." => Some('D')
    case "." => Some('E')
    case "..-." => Some('F')
    case "--." => Some('G')
    case "...." => Some('H')
    case ".." => Some('I')
    case ".---" => Some('J')
    case "-.-" => Some('K')
    case ".-.." => Some('L')
    case "--" => Some('M')
    case "-." => Some('N')
    case "---" => Some('O')
    case ".--." => Some('P')
    case "--.-" => Some('Q')
    case ".-." => Some('R')
    case "..." => Some('S')
    case "-" => Some('T')
    case "..-" => Some('U')
    case "...-" => Some('V')
    case ".--" => Some('W')
    case "-..-" => Some('X')
    case "-.--" => Some('Y')
    case "--.." => Some('Z')
    case ".----" => Some('1')
    case "..---" => Some('2')
    case "...--" => Some('3')
    case "....-" => Some('4')
    case "....." => Some('5')
    case "-...." => Some('6')
    case "--..." => Some('7')
    case "---.." => Some('8')
    case "----." => Some('9')
    case "-----" => Some('0')
    case ".-.-.-" => Some('.')
    case "--..--" => Some(',')
    case "..--.." => Some('?')
    case "/" => Some(' ')
    case _ => None
  }

  /** Upper-casing is idempotent, and keys are already upper case. */
  lemma UpperIdempotent(c: char)
    ensures Upper(Upper(c)) == Upper(c)
    ensures IsKey(c) ==> Upper(c) == c
  {
  }

  /** The inverse table undoes the table on every key. */
  lemma CharOfToken(c: char)
    requires IsKey(c)
    ensures CharOf(TokenOf(c)) == Some(c)
  {
  }

  /** The table is injective: two keys with the same token are the same key. */
  lemma TokenInjective(c: char, d: char)
    requires IsKey(c) && IsKey(d)
    requires TokenOf(c) == TokenOf(d)
    ensures c == d
  {
    CharOfToken(c);
    CharOfToken(d);
  }
}
