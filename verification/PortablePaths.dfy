/** The portable path policy of the transfer engine (internal/transfer/manifest.go): which slash-separated
    names every supported system can store and none reserves. A character is a Unicode code point. */
module PortablePaths {

  type Name = seq<string>   // split at the slashes

  // What one code point takes in UTF-8.
  function CharBytes(c: char): nat {
    if c as int < 0x80 then 1 else if c as int < 0x800 then 2 else if c as int < 0x1_0000 then 3 else 4
  }

  function Bytes(s: string): nat {
    if s == "" then 0 else CharBytes(s[0]) + Bytes(s[1..])
  }

  function PathBytes(name: Name): nat {
    if name == [] then 0 else Bytes(name[0]) + (if |name| == 1 then 0 else 1 + PathBytes(name[1..]))
  }

  // The code points whose lower or upper case is the ASCII letter, besides the ASCII ones.
  function ToLower(c: char): char {
    if 'A' <= c <= 'Z' then ((c as int - 'A' as int) + 'a' as int) as char
    else if c == '\U{0130}' then 'i' else if c == '\U{212A}' then 'k' else c
  }

  function ToUpper(c: char): char {
    if 'a' <= c <= 'z' then ((c as int - 'a' as int) + 'A' as int) as char
    else if c == '\U{0131}' then 'I' else if c == '\U{017F}' then 'S' else c
  }

  predicate HasPrefixFolded(s: string, mark: string) {
    |s| >= |mark| && forall i | 0 <= i < |mark| :: ToLower(s[i]) == mark[i]
  }

  function Upper(s: string): string {
    seq(|s|, i requires 0 <= i < |s| => ToUpper(s[i]))
  }

  // The component up to its first dot.
  function Base(part: string): string {
    if part == "" || part[0] == '.' then "" else [part[0]] + Base(part[1..])
  }

  predicate ReservedDevice(base: string) {
    || base in {"CON", "PRN", "AUX", "NUL", "CONIN$", "CONOUT$"}
    || (|base| >= 3 && base[..3] in {"COM", "LPT"}
        && ((|base| == 4 && '0' <= base[3] <= '9')
            || exists i | 0 <= i < |base| :: base[i] in {'\U{00B9}', '\U{00B2}', '\U{00B3}'}))
  }

  predicate ForbiddenChar(c: char) {
    || c in {'\\', ':', '<', '>', '"', '|', '?', '*', '/'}
    || c as int < 0x20 || 0x7F <= c as int <= 0x9F
  }

  predicate PortableComponent(part: string) {
    && part != "" && part != "." && part != ".." && Bytes(part) <= 240
    && part[|part| - 1] !in {'.', ' '} && !HasPrefixFolded(part, ".linksend")
    && (forall i | 0 <= i < |part| :: !ForbiddenChar(part[i]))
    && !ReservedDevice(Upper(Base(part)))
  }

  // transfer.ValidatePath, except that names are not checked for their normal form.
  predicate ValidPath(name: Name) {
    0 < |name| <= 32 && PathBytes(name) <= 1024 && forall i | 0 <= i < |name| :: PortableComponent(name[i])
  }
}
