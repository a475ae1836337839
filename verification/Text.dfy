/** What the store asks of text: whether trimming leaves anything. */
module Text {
  /** A white-space character in Unicode's sense, which strings.TrimSpace removes. */
  predicate IsSpace(c: char) {
    || 9 <= c as int <= 13 || c == ' ' || c as int in {0x85, 0xA0, 0x1680, 0x2028, 0x2029, 0x202F, 0x205F, 0x3000}
    || 0x2000 <= c as int <= 0x200A
  }

  /** strings.TrimSpace(s) == "" */
  predicate Blank(s: string) {
    forall i :: 0 <= i < |s| ==> IsSpace(s[i])
  }

  function DefaultStr(v: string, d: string): string {
    if Blank(v) then d else v
  }
}
