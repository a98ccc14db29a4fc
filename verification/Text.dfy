// Small shared vocabulary: optional values and the text measures the client applies
// to its inputs.
module Text {

  datatype Option<+T> = None | Some(value: T)

  // The characters that Go's strings.TrimSpace removes (the Unicode White_Space property).
  predicate IsSpace(c: char) {
    c in {'\t', '\n', '\U{0B}', '\U{0C}', '\r', ' ', '\U{85}', '\U{A0}', '\U{1680}',
          '\U{2028}', '\U{2029}', '\U{202F}', '\U{205F}', '\U{3000}'}
    || '\U{2000}' <= c <= '\U{200A}'
  }

  // strings.TrimSpace(s) == "".
  predicate Blank(s: string) {
    forall c <- s :: IsSpace(c)
  }

  // len(s) in Go counts the bytes of the UTF-8 encoding.
  function ByteLen(s: string): nat {
    if s == [] then 0
    else ByteLen(s[..|s| - 1]) +
         (var c := s[|s| - 1];
          if c <= '\U{7F}' then 1 else if c <= '\U{7FF}' then 2 else if c <= '\U{FFFF}' then 3 else 4)
  }

  // A continuation context grows by labelled paragraphs; nothing is ever removed from it.
  function Appended(context: string, heading: string, text: string): string {
    context + "\n" + heading + ": " + text
  }

  // The order of identifiers.
  predicate Before(a: string, b: string) {
    b != "" && (a == "" || a[0] < b[0] || (a[0] == b[0] && Before(a[1..], b[1..])))
  }

  lemma {:induction false} BeforeIsTotal(a: string, b: string)
    ensures a == b || Before(a, b) || Before(b, a)
    ensures !(Before(a, b) && Before(b, a)) && !Before(a, a)
  {
    if a != "" {
      BeforeIsTotal(a[1..], a[1..]);
      if b != "" {
        BeforeIsTotal(a[1..], b[1..]);
        assert a == [a[0]] + a[1..] && b == [b[0]] + b[1..];
      }
    }
  }

  lemma {:induction false} BeforeIsTransitive(a: string, b: string, c: string)
    requires Before(a, b) && Before(b, c)
    ensures Before(a, c)
  {
    if a != "" && a[0] == b[0] == c[0] {
      BeforeIsTransitive(a[1..], b[1..], c[1..]);
    }
  }
}
