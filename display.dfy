/**
 * Vocabulary shared by the presentation components: the display mode, the badge
 * variants, JavaScript truthiness of an optional string, and count badges.
 */
module Display {
  import opened Wrappers

  /** The `mode` prop of the list components; it defaults to highlight when omitted. */
  datatype Mode = Highlight | Full

  /** The badge variants the components choose from. */
  datatype Variant = Destructive | Info | Warning | Secondary | Outline | Success

  /** A badge that reads "<count> <unit>". */
  datatype CountBadge = CountBadge(variant: Variant, count: nat, unit: string)

  /**
   * JavaScript truthiness of an optional string field (`pub.venue && ...`):
   * an absent field and the empty string are both falsy.
   */
  predicate Truthy(field: Option<string>) {
    field.Some? && field.value != ""
  }

  /** The field as it is rendered: present only when it is truthy. */
  function Shown(field: Option<string>): (r: Option<string>)
    ensures r.Some? <==> Truthy(field)
    ensures r.Some? ==> field == r
  {
    if Truthy(field) then field else None
  }

  /** The unit word of a count badge: singular exactly when the count is one. */
  function Noun(count: nat, singular: string, plural: string): (r: string)
    ensures count == 1 ==> r == singular
    ensures count != 1 ==> r == plural
  {
    if count == 1 then singular else plural
  }

  function Min(a: int, b: int): int {
    if a <= b then a else b
  }

  /** The "And N more <noun>..." line under a truncated category. */
  datatype MoreLine = MoreLine(count: int, noun: string)

  function LowerChar(c: char): char {
    if 'A' <= c <= 'Z' then (c as int + 32) as char else c
  }

  /** `toLowerCase` on the ASCII labels. */
  function Lower(s: string): (r: string)
    ensures |r| == |s|
  {
    seq(|s|, i requires 0 <= i < |s| => LowerChar(s[i]))
  }

  lemma LowerLiteral(s: string, t: string)
    requires |s| == |t| && forall i :: 0 <= i < |s| ==> LowerChar(s[i]) == t[i]
    ensures Lower(s) == t
  {
  }
}
