/// Shared vocabulary of the WASIX environment model: bytes, the Option and
/// Result wrappers, and the "first position where" search that the Rust
/// iterator adaptors (`position`, `find_map`, `split_once`) all reduce to.
module WasixTypes {

  /** One byte of a Rust `[u8]`, or of the UTF-8 encoding of a `str`. */
  type Byte = b: int | 0 <= b < 256

  /** Rust `String`, `Vec<u8>` and `PathBuf` values, as their bytes. */
  type Bytes = seq<Byte>

  const NUL: Byte := 0
  const SPACE: Byte := 32     // ' '
  const DOT: Byte := 46       // '.'
  const SLASH: Byte := 47     // '/'
  const EQUALS: Byte := 61    // '='

  datatype Option<+T> = None | Some(value: T) {
    /** `unwrap_or` */
    function GetOr(default: T): T {
      if Some? then value else default
    }
  }

  datatype Result<+T, +E> = Ok(value: T) | Err(error: E)

  /** The bytes of an ASCII string literal. */
  function Ascii(s: string): Bytes
    requires forall i :: 0 <= i < |s| ==> s[i] as int < 128
  {
    seq(|s|, i requires 0 <= i < |s| => s[i] as int)
  }

  /** A string with no NUL character has no nul byte. */
  lemma AsciiNulFree(s: string)
    requires forall i :: 0 <= i < |s| ==> 0 < s[i] as int < 128
    ensures NUL !in Ascii(s)
  {
    var b := Ascii(s);
    assert forall i :: 0 <= i < |b| ==> b[i] == s[i] as int;
  }

  /** Position of the first element of `s` satisfying `p`, or `|s|` when
      there is none. */
  function FirstIndex<T>(s: seq<T>, p: T -> bool): (i: nat)
    ensures i <= |s|
    ensures forall k :: 0 <= k < i ==> !p(s[k])
    ensures i < |s| ==> p(s[i])
    decreases |s|
  {
    if |s| == 0 then 0
    else if p(s[0]) then 0
    else 1 + FirstIndex(s[1..], p)
  }

  /** The three facts FirstIndex promises determine it. */
  lemma FirstIndexAt<T>(s: seq<T>, p: T -> bool, i: nat)
    requires i <= |s|
    requires forall k :: 0 <= k < i ==> !p(s[k])
    requires i < |s| ==> p(s[i])
    ensures FirstIndex(s, p) == i
  {
  }
}
