/** White space at the ends of strings. */
module Text {

  /** The characters of the Unicode property White_Space, which Rust trims. */
  const WHITE_SPACE: set<char> := {
    '\U{0009}', '\U{000A}', '\U{000B}', '\U{000C}', '\U{000D}', '\U{0020}', '\U{0085}', '\U{00A0}',
    '\U{1680}', '\U{2000}', '\U{2001}', '\U{2002}', '\U{2003}', '\U{2004}', '\U{2005}', '\U{2006}',
    '\U{2007}', '\U{2008}', '\U{2009}', '\U{200A}', '\U{2028}', '\U{2029}', '\U{202F}', '\U{205F}',
    '\U{3000}'}

  /** JavaScript trims the byte order mark too, and leaves the next-line control. */
  const SCRIPT_WHITE_SPACE: set<char> := WHITE_SPACE - {'\U{0085}'} + {'\U{FEFF}'}

  function TrimStart(text: string, space: set<char>): string {
    if text != "" && text[0] in space then TrimStart(text[1..], space) else text
  }

  function TrimEnd(text: string, space: set<char>): string {
    if text != "" && text[|text| - 1] in space then TrimEnd(text[..|text| - 1], space) else text
  }

  function Trim(text: string, space: set<char>): string {
    TrimEnd(TrimStart(text, space), space)
  }
}
