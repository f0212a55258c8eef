/** Serialisation of a Content-Security-Policy directive map (`src/js/csp.js`):
    each directive becomes `name value`, and directives are separated by `; `,
    the policy syntax of section 2.2 of W3C Content Security Policy Level 3. */
module Csp {

  /** A directive map as its entries, in the order `Object.entries` lists them. */
  type Directives = seq<(string, string)>

  /** The entries of an object: no name occurs twice. */
  predicate DistinctNames(directives: Directives) {
    forall i, j :: 0 <= i < j < |directives| ==> directives[i].0 != directives[j].0
  }

  const Separator: string := "; "

  /** `Array.prototype.join`. */
  function Join(parts: seq<string>, sep: string): string {
    if |parts| == 0 then ""
    else if |parts| == 1 then parts[0]
    else parts[0] + sep + Join(parts[1..], sep)
  }

  function Entry(directive: (string, string)): string {
    directive.0 + " " + directive.1
  }

  function Entries(directives: Directives): (r: seq<string>)
    ensures |r| == |directives|
    ensures forall k :: 0 <= k < |r| ==> r[k] == Entry(directives[k])
  {
    seq(|directives|, k requires 0 <= k < |directives| => Entry(directives[k]))
  }

  /** Entries of a list of directives put together are the two lists of entries put together. */
  lemma EntriesConcat(first: Directives, second: Directives)
    ensures Entries(first + second) == Entries(first) + Entries(second)
  {
  }

  /** `toCspString`: empty exactly for an empty map, and otherwise it opens with the
      first directive's `name value`. */
  function ToCspString(directives: Directives): (r: string)
    ensures r == "" <==> |directives| == 0
    ensures |directives| > 0 ==>
      var first := Entry(directives[0]);
      |first| <= |r| && r[..|first|] == first
  {
    Join(Entries(directives), Separator)
  }

  /** Joining two non-empty lists puts one separator between their joins. */
  lemma {:induction false} JoinConcat(a: seq<string>, b: seq<string>, sep: string)
    requires |a| > 0 && |b| > 0
    ensures Join(a + b, sep) == Join(a, sep) + sep + Join(b, sep)
    decreases |a|
  {
    var ab := a + b;
    assert ab[0] == a[0];
    if |a| == 1 {
      assert ab[1..] == b;
      assert Join(ab, sep) == a[0] + sep + Join(b, sep);
    } else {
      assert ab[1..] == a[1..] + b;
      JoinConcat(a[1..], b, sep);
      var tail := Join(a[1..], sep);
      assert Join(ab, sep) == a[0] + sep + (tail + sep + Join(b, sep));
      assert Join(a, sep) == a[0] + sep + tail;
    }
  }

  function SumLengths(parts: seq<string>): nat {
    if |parts| == 0 then 0 else |parts[0]| + SumLengths(parts[1..])
  }

  /** The join of k >= 1 parts is as long as the parts together plus k - 1 separators. */
  lemma {:induction false} JoinLength(parts: seq<string>, sep: string)
    requires |parts| > 0
    ensures |Join(parts, sep)| == SumLengths(parts) + |sep| * (|parts| - 1)
    decreases |parts|
  {
    if |parts| > 1 {
      JoinLength(parts[1..], sep);
    }
  }

  /** An empty map serialises to the empty string. */
  lemma EmptyPolicy()
    ensures ToCspString([]) == ""
  {
  }

  /** One directive serialises to its name, a space and its value; an empty value
      leaves a trailing space. */
  lemma {:induction false} SingleDirective(name: string, value: string)
    ensures ToCspString([(name, value)]) == name + " " + value
    ensures value == "" ==> ToCspString([(name, value)]) == name + " "
  {
    assert Entries([(name, value)]) == [name + " " + value];
  }

  /** Directives keep their order: the policy of two non-empty maps with no name in common put together
      is the first policy, `; `, then the second. */
  lemma {:induction false} ConcatPolicies(first: Directives, second: Directives)
    requires |first| > 0 && |second| > 0
    requires DistinctNames(first + second)
    ensures ToCspString(first + second) == ToCspString(first) + Separator + ToCspString(second)
  {
    EntriesConcat(first, second);
    JoinConcat(Entries(first), Entries(second), Separator);
  }

  /** Adding a directive with a new name to a non-empty map appends `; name value`. */
  lemma AppendDirective(directives: Directives, name: string, value: string)
    requires |directives| > 0
    requires DistinctNames(directives)
    requires forall d :: d in directives ==> d.0 != name
    ensures ToCspString(directives + [(name, value)]) == ToCspString(directives) + "; " + name + " " + value
  {
    ConcatPolicies(directives, [(name, value)]);
    SingleDirective(name, value);
  }

  /** The total of |name| + 1 + |value| over the directives. */
  function DirectivesLength(directives: Directives): nat {
    if |directives| == 0 then 0
    else |directives[0].0| + 1 + |directives[0].1| + DirectivesLength(directives[1..])
  }

  lemma {:induction false} EntriesLength(directives: Directives)
    ensures SumLengths(Entries(directives)) == DirectivesLength(directives)
    decreases |directives|
  {
    if |directives| > 0 {
      EntriesLength(directives[1..]);
      assert Entries(directives)[1..] == Entries(directives[1..]);
    }
  }

  /** A policy of k >= 1 directives is as long as its names and values, plus one
      space per directive and two characters per separator. */
  lemma PolicyLength(directives: Directives)
    requires |directives| > 0
    ensures |ToCspString(directives)| == DirectivesLength(directives) + 2 * (|directives| - 1)
  {
    JoinLength(Entries(directives), Separator);
    EntriesLength(directives);
  }
}
