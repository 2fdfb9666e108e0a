/** Whitespace as Python's `str.isspace`, `str.strip`, `str.split` and the regular
    expression `\s` understand it. */
module Whitespace {

  predicate IsSpace(c: char) {
    var n := c as int;
    || 0x09 <= n <= 0x0D || 0x1C <= n <= 0x20 || n == 0x85 || n == 0xA0 || n == 0x1680
    || 0x2000 <= n <= 0x200A || n == 0x2028 || n == 0x2029 || n == 0x202F || n == 0x205F || n == 0x3000
  }

  /** `"".join(s.split())`: every whitespace character removed. */
  function Squeeze(s: string): string {
    if s == "" then ""
    else if IsSpace(s[0]) then Squeeze(s[1..])
    else [s[0]] + Squeeze(s[1..])
  }

  /** `raw` is `payload` with whitespace put in anywhere. */
  predicate Folding(raw: string, payload: string)
    decreases raw
  {
    if raw == "" then payload == ""
    else if IsSpace(raw[0]) then Folding(raw[1..], payload)
    else payload != "" && raw[0] == payload[0] && Folding(raw[1..], payload[1..])
  }

  lemma {:induction false} SqueezeUndoesFolding(raw: string, payload: string)
    ensures Folding(raw, payload) <==> Squeeze(raw) == payload
    decreases raw
  {
    if raw == "" {
    } else if IsSpace(raw[0]) {
      SqueezeUndoesFolding(raw[1..], payload);
    } else if payload != "" {
      SqueezeUndoesFolding(raw[1..], payload[1..]);
      assert payload == [payload[0]] + payload[1..];
    }
  }
}
