/** Lines of bytes. A byte is written as the character of the same number. */
module Lines {

  type Bytes = seq<char>

  /** The first position of c, or the length of s. */
  function IndexOf(s: Bytes, c: char): (i: nat)
    ensures i <= |s| && (i < |s| ==> s[i] == c)
    ensures forall j :: 0 <= j < i ==> s[j] != c
  {
    if s == [] || s[0] == c then 0 else IndexOf(s[1..], c) + 1
  }

  predicate IsEol(c: char) {
    c == '\n' || c == '\r'
  }

  /** bytes.TrimRight(line, "\r\n") */
  function TrimRight(line: Bytes): Bytes {
    if line != [] && IsEol(line[|line| - 1]) then TrimRight(line[..|line| - 1]) else line
  }
}
