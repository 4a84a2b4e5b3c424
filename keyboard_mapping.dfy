/**
 * Character-to-keycode tables for the US and JIS host keyboard layouts,
 * the per-layout sets of characters that need Shift, and the layout selector.
 * Keycodes are opaque: only their identity matters to the device.
 */
module KeyboardMapping {

  import opened Wrappers

  /** The HID usage names the device sends (an opaque enumeration). */
  datatype Keycode =
    | A | B | C | D | E | F | G | H | I | J | K | L | M
    | N | O | P | Q | R | S | T | U | V | W | X | Y | Z
    | ZERO | ONE | TWO | THREE | FOUR | FIVE | SIX | SEVEN | EIGHT | NINE
    | SPACE | QUOTE | EQUALS | COMMA | MINUS | PERIOD | FORWARD_SLASH | SEMICOLON
    | LEFT_BRACKET | BACKSLASH | RIGHT_BRACKET | GRAVE_ACCENT
    | ENTER | BACKSPACE

  /** One press-and-release report sent to the host: a key, with or without Shift. */
  datatype Report = Report(key: Keycode, shift: bool)

  /**
   * The US-layout table, one case per entry, in the table's own order.
   * Entries are keyed by code point (the character is in the comment), which
   * keeps case analysis over the table cheap for the verifier.
   */
  function KeycodeUS(c: char): Option<Keycode>
  {
    match c as int
    case 97 => Some(A)          // 'a'
    case 98 => Some(B)          // 'b'
    case 99 => Some(C)          // 'c'
    case 100 => Some(D)         // 'd'
    case 101 => Some(E)         // 'e'
    case 102 => Some(F)         // 'f'
    case 103 => Some(G)         // 'g'
    case 104 => Some(H)         // 'h'
    case 105 => Some(I)         // 'i'
    case 106 => Some(J)         // 'j'
    case 107 => Some(K)         // 'k'
    case 108 => Some(L)         // 'l'
    case 109 => Some(M)         // 'm'
    case 110 => Some(N)         // 'n'
    case 111 => Some(O)         // 'o'
    case 112 => Some(P)         // 'p'
    case 113 => Some(Q)         // 'q'
    case 114 => Some(R)         // 'r'
    case 115 => Some(S)         // 's'
    case 116 => Some(T)         // 't'
    case 117 => Some(U)         // 'u'
    case 118 => Some(V)         // 'v'
    case 119 => Some(W)         // 'w'
    case 120 => Some(X)         // 'x'
    case 121 => Some(Y)         // 'y'
    case 122 => Some(Z)         // 'z'
    case 48 => Some(ZERO)       // '0'
    case 49 => Some(ONE)        // '1'
    case 50 => Some(TWO)        // '2'
    case 51 => Some(THREE)      // '3'
    case 52 => Some(FOUR)       // '4'
    case 53 => Some(FIVE)       // '5'
    case 54 => Some(SIX)        // '6'
    case 55 => Some(SEVEN)      // '7'
    case 56 => Some(EIGHT)      // '8'
    case 57 => Some(NINE)       // '9'
    case 32 => Some(SPACE)      // ' '
    case 33 => Some(ONE)        // '!'
    case 34 => Some(QUOTE)      // '"'
    case 35 => Some(THREE)      // '#'
    case 36 => Some(FOUR)       // '$'
    case 37 => Some(FIVE)       // '%'
    case 38 => Some(SEVEN)      // '&'
    case 39 => Some(QUOTE)      // '\''
    case 40 => Some(NINE)       // '('
    case 41 => Some(ZERO)       // ')'
    case 42 => Some(EIGHT)      // '*'
    case 43 => Some(EQUALS)     // '+'
    case 44 => Some(COMMA)      // ','
    case 45 => Some(MINUS)      // '-'
    case 46 => Some(PERIOD)     // '.'
    case 47 => Some(FORWARD_SLASH) // '/'
    case 58 => Some(SEMICOLON)  // ':'
    case 59 => Some(SEMICOLON)  // ';'
    case 60 => Some(COMMA)      // '<'
    case 61 => Some(EQUALS)     // '='
    case 62 => Some(PERIOD)     // '>'
    case 63 => Some(FORWARD_SLASH) // '?'
    case 64 => Some(TWO)        // '@'
    case 91 => Some(LEFT_BRACKET) // '['
    case 92 => Some(BACKSLASH)  // '\\'
    case 93 => Some(RIGHT_BRACKET) // ']'
    case 94 => Some(SIX)        // '^'
    case 95 => Some(MINUS)      // '_'
    case 96 => Some(GRAVE_ACCENT) // '`'
    case 123 => Some(LEFT_BRACKET) // '{'
    case 124 => Some(BACKSLASH) // '|'
    case 125 => Some(RIGHT_BRACKET) // '}'
    case 126 => Some(GRAVE_ACCENT) // '~'
    case 10 => Some(ENTER)      // '\n'
    case _ => None
  }

  /** The JIS-layout table, keyed by code point like the US one. */
  function KeycodeJIS(c: char): Option<Keycode>
  {
    match c as int
    case 97 => Some(A)          // 'a'
    case 98 => Some(B)          // 'b'
    case 99 => Some(C)          // 'c'
    case 100 => Some(D)         // 'd'
    case 101 => Some(E)         // 'e'
    case 102 => Some(F)         // 'f'
    case 103 => Some(G)         // 'g'
    case 104 => Some(H)         // 'h'
    case 105 => Some(I)         // 'i'
    case 106 => Some(J)         // 'j'
    case 107 => Some(K)         // 'k'
    case 108 => Some(L)         // 'l'
    case 109 => Some(M)         // 'm'
    case 110 => Some(N)         // 'n'
    case 111 => Some(O)         // 'o'
    case 112 => Some(P)         // 'p'
    case 113 => Some(Q)         // 'q'
    case 114 => Some(R)         // 'r'
    case 115 => Some(S)         // 's'
    case 116 => Some(T)         // 't'
    case 117 => Some(U)         // 'u'
    case 118 => Some(V)         // 'v'
    case 119 => Some(W)         // 'w'
    case 120 => Some(X)         // 'x'
    case 121 => Some(Y)         // 'y'
    case 122 => Some(Z)         // 'z'
    case 48 => Some(ZERO)       // '0'
    case 49 => Some(ONE)        // '1'
    case 50 => Some(TWO)        // '2'
    case 51 => Some(THREE)      // '3'
    case 52 => Some(FOUR)       // '4'
    case 53 => Some(FIVE)       // '5'
    case 54 => Some(SIX)        // '6'
    case 55 => Some(SEVEN)      // '7'
    case 56 => Some(EIGHT)      // '8'
    case 57 => Some(NINE)       // '9'
    case 32 => Some(SPACE)      // ' '
    case 33 => Some(ONE)        // '!'
    case 34 => Some(TWO)        // '"'
    case 35 => Some(THREE)      // '#'
    case 36 => Some(FOUR)       // '$'
    case 37 => Some(FIVE)       // '%'
    case 38 => Some(SIX)        // '&'
    case 39 => Some(SEVEN)      // '\''
    case 40 => Some(EIGHT)      // '('
    case 41 => Some(NINE)       // ')'
    case 42 => Some(QUOTE)      // '*'
    case 43 => Some(SEMICOLON)  // '+'
    case 44 => Some(COMMA)      // ','
    case 45 => Some(MINUS)      // '-'
    case 46 => Some(PERIOD)     // '.'
    case 47 => Some(FORWARD_SLASH) // '/'
    case 58 => Some(QUOTE)      // ':'
    case 59 => Some(SEMICOLON)  // ';'
    case 60 => Some(COMMA)      // '<'
    case 61 => Some(MINUS)      // '='
    case 62 => Some(PERIOD)     // '>'
    case 63 => Some(FORWARD_SLASH) // '?'
    case 64 => Some(LEFT_BRACKET) // '@'
    case 91 => Some(RIGHT_BRACKET) // '['
    case 92 => Some(BACKSLASH)  // '\\'
    case 93 => Some(BACKSLASH)  // ']'
    case 94 => Some(EQUALS)     // '^'
    case 95 => Some(BACKSLASH)  // '_'
    case 96 => Some(LEFT_BRACKET) // '`'
    case 123 => Some(RIGHT_BRACKET) // '{'
    case 124 => Some(BACKSLASH) // '|'
    case 125 => Some(BACKSLASH) // '}'
    case 126 => Some(EQUALS)    // '~'
    case 10 => Some(ENTER)      // '\n'
    case _ => None
  }

  /** The US table as a dictionary from character to keycode. */
  function CharToKeycodeUS(): map<char, Keycode>
  {
    map c: char | KeycodeUS(c).Some? :: KeycodeUS(c).value
  }

  /** The JIS table as a dictionary from character to keycode. */
  function CharToKeycodeJIS(): map<char, Keycode>
  {
    map c: char | KeycodeJIS(c).Some? :: KeycodeJIS(c).value
  }

  /** Characters that the US layout types with Shift held. */
  function NeedsShiftUS(): set<char>
  {
    {'!', '@', '#', '$', '%', '^', '&', '*', '(', ')', '_', '+', '{', '}', '|', ':', '"', '<', '>', '?', '~'}
  }

  /** Characters that the JIS layout types with Shift held. */
  function NeedsShiftJIS(): set<char>
  {
    {'!', '"', '#', '$', '%', '&', '\'', '(', ')', '*', '+', ':', ';', '<', '>', '?', '[', ']', '^', '_', '{', '|', '}', '~'}
  }

  /** A keycode table together with its shift set. */
  datatype Mapping = Mapping(charToKeycode: map<char, Keycode>, needsShift: set<char>)

  function MappingUS(): Mapping { Mapping(CharToKeycodeUS(), NeedsShiftUS()) }
  function MappingJIS(): Mapping { Mapping(CharToKeycodeJIS(), NeedsShiftJIS()) }

  /** The layout selector: "JIS" picks the JIS pair, any other value the US pair. */
  function GetKeycodeMapping(layout: string): (m: Mapping)
    ensures m == MappingUS() || m == MappingJIS()
  {
    if layout == "JIS" then MappingJIS() else MappingUS()
  }

  /**
   * Reference definition of the US host layout: the characters a key types
   * without and with Shift (None for a key that types no character).
   */
  function UsKeyChars(k: Keycode): Option<(char, char)>
  {
    match k
      case A => Some(('a', 'A'))
      case B => Some(('b', 'B'))
      case C => Some(('c', 'C'))
      case D => Some(('d', 'D'))
      case E => Some(('e', 'E'))
      case F => Some(('f', 'F'))
      case G => Some(('g', 'G'))
      case H => Some(('h', 'H'))
      case I => Some(('i', 'I'))
      case J => Some(('j', 'J'))
      case K => Some(('k', 'K'))
      case L => Some(('l', 'L'))
      case M => Some(('m', 'M'))
      case N => Some(('n', 'N'))
      case O => Some(('o', 'O'))
      case P => Some(('p', 'P'))
      case Q => Some(('q', 'Q'))
      case R => Some(('r', 'R'))
      case S => Some(('s', 'S'))
      case T => Some(('t', 'T'))
      case U => Some(('u', 'U'))
      case V => Some(('v', 'V'))
      case W => Some(('w', 'W'))
      case X => Some(('x', 'X'))
      case Y => Some(('y', 'Y'))
      case Z => Some(('z', 'Z'))
      case ZERO => Some(('0', ')'))
      case ONE => Some(('1', '!'))
      case TWO => Some(('2', '@'))
      case THREE => Some(('3', '#'))
      case FOUR => Some(('4', '$'))
      case FIVE => Some(('5', '%'))
      case SIX => Some(('6', '^'))
      case SEVEN => Some(('7', '&'))
      case EIGHT => Some(('8', '*'))
      case NINE => Some(('9', '('))
      case SPACE => Some((' ', ' '))
      case QUOTE => Some(('\'', '"'))
      case EQUALS => Some(('=', '+'))
      case COMMA => Some((',', '<'))
      case MINUS => Some(('-', '_'))
      case PERIOD => Some(('.', '>'))
      case FORWARD_SLASH => Some(('/', '?'))
      case SEMICOLON => Some((';', ':'))
      case LEFT_BRACKET => Some(('[', '{'))
      case BACKSLASH => Some(('\\', '|'))
      case RIGHT_BRACKET => Some((']', '}'))
      case GRAVE_ACCENT => Some(('`', '~'))
      case ENTER => Some(('\n', '\n'))
      case BACKSPACE => None
  }

  /** The character a host set to the US layout types for a report. */
  function TypedUS(r: Report): Option<char>
  {
    match UsKeyChars(r.key)
    case None => None
    case Some(pair) => Some(if r.shift then pair.1 else pair.0)
  }

  /** The characters both tables cover: printable ASCII without the capitals, and newline. */
  predicate IsTableChar(c: char)
  {
    ' ' <= c <= '@' || '[' <= c <= '~' || c == '\n'
  }

  /** Lower-case ASCII letters and decimal digits. */
  predicate IsLetterOrDigit(c: char)
  {
    'a' <= c <= 'z' || '0' <= c <= '9'
  }

  /** Every shift set lists only characters of its own table. */
  lemma ShiftSetsAreTableKeys()
    ensures NeedsShiftUS() <= CharToKeycodeUS().Keys
    ensures NeedsShiftJIS() <= CharToKeycodeJIS().Keys
  {
    forall c | c in NeedsShiftUS() ensures c in CharToKeycodeUS() {
      NeedsShiftUSMembers(c);
      TableKeys(c);
    }
    forall c | c in NeedsShiftJIS() ensures c in CharToKeycodeJIS() {
      NeedsShiftJISMembers(c);
      TableKeys(c);
    }
  }

  /** Newline is Enter and blank is Space in both layouts, neither with Shift. */
  lemma EnterAndSpace()
    ensures forall m | m in {MappingUS(), MappingJIS()} ::
      '\n' in m.charToKeycode && m.charToKeycode['\n'] == ENTER && '\n' !in m.needsShift &&
      ' ' in m.charToKeycode && m.charToKeycode[' '] == SPACE && ' ' !in m.needsShift
  {
    TableLookup('\n');
    TableLookup(' ');
    NeedsShiftUSMembers('\n');
    NeedsShiftUSMembers(' ');
    NeedsShiftJISMembers('\n');
    NeedsShiftJISMembers(' ');
  }

  /** The dictionaries hold exactly the table entries. */
  lemma TableLookup(c: char)
    ensures c in CharToKeycodeUS() <==> KeycodeUS(c).Some?
    ensures c in CharToKeycodeUS() ==> CharToKeycodeUS()[c] == KeycodeUS(c).value
    ensures c in CharToKeycodeJIS() <==> KeycodeJIS(c).Some?
    ensures c in CharToKeycodeJIS() ==> CharToKeycodeJIS()[c] == KeycodeJIS(c).value
  {
  }

  /** The US table has an entry exactly for the table characters. */
  lemma UsKeys(c: char)
    ensures KeycodeUS(c).Some? <==> IsTableChar(c)
  {
  }

  /** The JIS table has an entry exactly for the table characters. */
  lemma JisKeys(c: char)
    ensures KeycodeJIS(c).Some? <==> IsTableChar(c)
  {
  }

  /** Both tables have the same keys: exactly the table characters. */
  lemma TableKeys(c: char)
    ensures c in CharToKeycodeUS() <==> IsTableChar(c)
    ensures c in CharToKeycodeJIS() <==> IsTableChar(c)
  {
    TableLookup(c);
    UsKeys(c);
    JisKeys(c);
  }

  /** Both layouts cover the same characters, so the layout choice never changes what can be typed. */
  lemma SameKeySets()
    ensures CharToKeycodeUS().Keys == CharToKeycodeJIS().Keys
  {
    forall c: char
      ensures c in CharToKeycodeUS() <==> c in CharToKeycodeJIS()
    {
      TableKeys(c);
    }
  }

  /** Letters and digits map to the same unshifted report in both layouts. */
  lemma LetterOrDigitAgrees(c: char)
    requires IsLetterOrDigit(c)
    ensures c in CharToKeycodeUS() && c in CharToKeycodeJIS()
    ensures CharToKeycodeUS()[c] == CharToKeycodeJIS()[c]
    ensures c !in NeedsShiftUS() && c !in NeedsShiftJIS()
  {
    NeedsShiftUSMembers(c);
    NeedsShiftJISMembers(c);
  }

  /** Membership in the JIS shift set, spelled out over code points. */
  lemma NeedsShiftJISMembers(c: char)
    ensures c in NeedsShiftJIS() <==>
      var n := c as int;
      n == 33 || n == 34 || n == 35 || n == 36 || n == 37 || n == 38 || n == 39 || n == 40 || n == 41 || n == 42 || n == 43 || n == 58 || n == 59 || n == 60 || n == 62 || n == 63 || n == 91 || n == 93 || n == 94 || n == 95 || n == 123 || n == 124 || n == 125 || n == 126
  {
  }

  /** Membership in the US shift set, spelled out over code points. */
  lemma NeedsShiftUSMembers(c: char)
    ensures c in NeedsShiftUS() <==>
      var n := c as int;
      n == 33 || n == 64 || n == 35 || n == 36 || n == 37 || n == 94 || n == 38 || n == 42 || n == 40 || n == 41 || n == 95 || n == 43 || n == 123 || n == 125 || n == 124 || n == 58 || n == 34 || n == 60 || n == 62 || n == 63 || n == 126
  {
  }

  /** The US round trip for lower-case letters. */
  lemma UsRoundTripPart0(c: char)
    requires 'a' <= c <= 'z'
    ensures KeycodeUS(c).Some? && TypedUS(Report(KeycodeUS(c).value, c in NeedsShiftUS())) == Some(c)
  {
    NeedsShiftUSMembers(c);
  }

  /** The US round trip for digits. */
  lemma UsRoundTripPart1(c: char)
    requires '0' <= c <= '9'
    ensures KeycodeUS(c).Some? && TypedUS(Report(KeycodeUS(c).value, c in NeedsShiftUS())) == Some(c)
  {
    NeedsShiftUSMembers(c);
  }

  /** The US round trip for blank to apostrophe. */
  lemma UsRoundTripPart2(c: char)
    requires ' ' <= c <= '\''
    ensures KeycodeUS(c).Some? && TypedUS(Report(KeycodeUS(c).value, c in NeedsShiftUS())) == Some(c)
  {
    NeedsShiftUSMembers(c);
  }

  /** The US round trip for parenthesis to slash. */
  lemma UsRoundTripPart3(c: char)
    requires '(' <= c <= '/'
    ensures KeycodeUS(c).Some? && TypedUS(Report(KeycodeUS(c).value, c in NeedsShiftUS())) == Some(c)
  {
    NeedsShiftUSMembers(c);
  }

  /** The US round trip for colon to equals. */
  lemma UsRoundTripPart4(c: char)
    requires ':' <= c <= '='
    ensures KeycodeUS(c).Some? && TypedUS(Report(KeycodeUS(c).value, c in NeedsShiftUS())) == Some(c)
  {
    NeedsShiftUSMembers(c);
  }

  /** The US round trip for greater-than to at sign, and left bracket. */
  lemma UsRoundTripPart5(c: char)
    requires '>' <= c <= '@' || c == '['
    ensures KeycodeUS(c).Some? && TypedUS(Report(KeycodeUS(c).value, c in NeedsShiftUS())) == Some(c)
  {
    NeedsShiftUSMembers(c);
  }

  /** The US round trip for backslash to grave accent. */
  lemma UsRoundTripPart6(c: char)
    requires '\\' <= c <= '`'
    ensures KeycodeUS(c).Some? && TypedUS(Report(KeycodeUS(c).value, c in NeedsShiftUS())) == Some(c)
  {
    NeedsShiftUSMembers(c);
  }

  /** The US round trip for braces and bar. */
  lemma UsRoundTripPart7(c: char)
    requires '{' <= c <= '}'
    ensures KeycodeUS(c).Some? && TypedUS(Report(KeycodeUS(c).value, c in NeedsShiftUS())) == Some(c)
  {
    NeedsShiftUSMembers(c);
  }

  /** The US round trip for tilde and newline. */
  lemma UsRoundTripPart8(c: char)
    requires c == '~' || c == '\n'
    ensures KeycodeUS(c).Some? && TypedUS(Report(KeycodeUS(c).value, c in NeedsShiftUS())) == Some(c)
  {
    NeedsShiftUSMembers(c);
  }

  /** Every US table entry types back its own character on a US host. */
  lemma UsRoundTrip(c: char)
    requires c in CharToKeycodeUS()
    ensures TypedUS(Report(CharToKeycodeUS()[c], c in NeedsShiftUS())) == Some(c)
  {
    TableLookup(c);
    UsKeys(c);
    if 'a' <= c <= 'z' {
      UsRoundTripPart0(c);
    } else if '0' <= c <= '9' {
      UsRoundTripPart1(c);
    } else if ' ' <= c <= '\'' {
      UsRoundTripPart2(c);
    } else if '(' <= c <= '/' {
      UsRoundTripPart3(c);
    } else if ':' <= c <= '=' {
      UsRoundTripPart4(c);
    } else if '>' <= c <= '@' || c == '[' {
      UsRoundTripPart5(c);
    } else if '\\' <= c <= '`' {
      UsRoundTripPart6(c);
    } else if '{' <= c <= '}' {
      UsRoundTripPart7(c);
    } else {
      UsRoundTripPart8(c);
    }
  }

  /** On a US host a shifted letter key types the capital letter. */
  lemma UsShiftedLetterIsCapital(c: char)
    requires 'a' <= c <= 'z'
    ensures c in CharToKeycodeUS() && TypedUS(Report(CharToKeycodeUS()[c], true)) == Some((c as int - 32) as char)
  {
    TableLookup(c);
    UsShiftedLetter(c);
  }

  /** The shifted letter keys, on the table function. */
  lemma UsShiftedLetter(c: char)
    requires 'a' <= c <= 'z'
    ensures KeycodeUS(c).Some? && TypedUS(Report(KeycodeUS(c).value, true)) == Some((c as int - 32) as char)
  {
  }

  /** Distinct US characters never share a report. */
  lemma UsReportsInjective(c1: char, c2: char)
    requires c1 in CharToKeycodeUS() && c2 in CharToKeycodeUS()
    requires CharToKeycodeUS()[c1] == CharToKeycodeUS()[c2]
    requires c1 in NeedsShiftUS() <==> c2 in NeedsShiftUS()
    ensures c1 == c2
  {
    UsRoundTrip(c1);
    UsRoundTrip(c2);
  }

  /**
   * Two characters that the JIS layout sends as the same report: both have a
   * table entry, with the same keycode, and Shift for both or for neither
   * (`TableLookup` carries this over to the dictionary).
   */
  predicate SameJisReport(c1: char, c2: char)
  {
    && KeycodeJIS(c1).Some? && KeycodeJIS(c1) == KeycodeJIS(c2)
    && (c1 in NeedsShiftJIS() <==> c2 in NeedsShiftJIS())
  }

  // The JIS table is not injective: each pair below is sent as one and the
  // same report, so no host can type both characters of a pair.

  /** ':' and '*' are both QUOTE with Shift. */
  lemma JisColonStar()
    ensures SameJisReport(':', '*') && KeycodeJIS(':') == Some(QUOTE)
  {
  }

  /** ';' and '+' are both SEMICOLON with Shift. */
  lemma JisSemicolonPlus()
    ensures SameJisReport(';', '+') && KeycodeJIS(';') == Some(SEMICOLON)
  {
  }

  /** '-' and '=' are both MINUS without Shift. */
  lemma JisMinusEquals()
    ensures SameJisReport('-', '=') && KeycodeJIS('-') == Some(MINUS)
  {
  }

  /** '@' and '`' are both LEFT_BRACKET without Shift. */
  lemma JisAtBacktick()
    ensures SameJisReport('@', '`') && KeycodeJIS('@') == Some(LEFT_BRACKET)
  {
  }

  /** '[' and '{' are both RIGHT_BRACKET with Shift. */
  lemma JisBracketBrace()
    ensures SameJisReport('[', '{') && KeycodeJIS('[') == Some(RIGHT_BRACKET)
  {
  }

  /** '^' and '~' are both EQUALS with Shift. */
  lemma JisCaretTilde()
    ensures SameJisReport('^', '~') && KeycodeJIS('^') == Some(EQUALS)
  {
  }

  /** ']' and '_' are both BACKSLASH with Shift. */
  lemma JisBracketUnderscore()
    ensures SameJisReport(']', '_') && KeycodeJIS(']') == Some(BACKSLASH) && ']' in NeedsShiftJIS()
  {
  }

  /** ']' and '|' are both BACKSLASH with Shift. */
  lemma JisBracketBar()
    ensures SameJisReport(']', '|') && KeycodeJIS(']') == Some(BACKSLASH) && ']' in NeedsShiftJIS()
  {
  }

  /** ']' and '}' are both BACKSLASH with Shift. */
  lemma JisBracketCloseBrace()
    ensures SameJisReport(']', '}') && KeycodeJIS(']') == Some(BACKSLASH) && ']' in NeedsShiftJIS()
  {
  }

  /** "JIS" selects the JIS pair and nothing else does; every other value selects US. */
  lemma SelectsJisExactly(layout: string)
    ensures GetKeycodeMapping(layout) == MappingJIS() <==> layout == "JIS"
    ensures layout != "JIS" ==> GetKeycodeMapping(layout) == MappingUS()
  {
    if layout != "JIS" {
      assert '@' in NeedsShiftUS() && '@' !in NeedsShiftJIS();
    }
  }
}
