/**
 * The response rendering of `main`: the status check, and the printing of a
 * JSON object with its top-level keys sorted. The JSON parser and printer
 * are outside the model: a parsed object arrives as its fields, each with
 * the key and the text `Display` gives its value.
 */
module Render {
  import opened Text
  import opened Sorting

  /** A top-level member of a JSON object: its key and its value as printed. */
  datatype Field = Field(key: string, shown: string)

  /**
   * A parsed JSON value: an object, with its fields in iteration order, or
   * anything else, with the text `to_string_pretty` gives it.
   */
  datatype Json = Object(fields: seq<Field>) | NonObject(pretty: string)

  /** The key `sort_by_key` sorts the collected fields by. */
  function KeyOf(f: Field): string {
    f.key
  }

  // ---------------------------------------------------------------------------
  // Printing an object

  /** One line per field: two spaces, the key in quotes, its value, and a comma. */
  function KeyLine(f: Field): string {
    "  \"" + f.key + "\": " + f.shown + ","
  }

  function KeyLines(s: seq<Field>): (r: seq<string>)
    ensures |r| == |s|
  {
    if s == [] then [] else KeyLines(s[..|s| - 1]) + [KeyLine(s[|s| - 1])]
  }

  /** The `k`-th field line prints the `k`-th field. */
  lemma {:induction false} KeyLinesAt(s: seq<Field>, k: nat)
    requires k < |s|
    ensures KeyLines(s)[k] == KeyLine(s[k])
    decreases |s|
  {
    if k < |s| - 1 {
      KeyLinesAt(s[..|s| - 1], k);
    }
  }

  /** The lines printed for an object whose fields are `s`, in that order. */
  function ObjectLines(s: seq<Field>): (r: seq<string>)
    ensures |r| == |s| + 2 && r[0] == "{" && r[|r| - 1] == "}"
  {
    ["{"] + KeyLines(s) + ["}"]
  }

  /** Printing an object: collect the fields, sort them by key, then print them one per line. */
  method RenderObject(fields: seq<Field>) returns (lines: seq<string>)
    ensures lines == ObjectLines(SortByKey(fields, KeyOf))
  {
    var a := new Field[|fields|](k requires 0 <= k < |fields| => fields[k]);
    assert a[..] == fields;
    SortInPlace(a, KeyOf);
    lines := ["{"];
    for k := 0 to a.Length
      invariant lines == ["{"] + KeyLines(a[..k])
    {
      assert a[..k + 1][..k] == a[..k];
      assert KeyLines(a[..k + 1]) == KeyLines(a[..k]) + [KeyLine(a[k])];
      lines := lines + [KeyLine(a[k])];
    }
    assert a[..] == a[..a.Length];
    lines := lines + ["}"];
  }

  /** Every field line ends with a comma, the line of the last field included. */
  lemma KeyLineEndsWithComma(f: Field)
    ensures var line := KeyLine(f); |line| > 0 && line[|line| - 1] == ','
  {
    var line := KeyLine(f);
    assert line == ("  \"" + f.key + "\": " + f.shown) + [','];
  }

  /**
   * `r` is `{`, then the line of each field of `sorted` in order, each ending
   * with a comma, then `}`.
   */
  predicate PrintedAs(r: seq<string>, sorted: seq<Field>) {
    && |r| == |sorted| + 2
    && r[0] == "{" && r[|r| - 1] == "}"
    && (forall k :: 1 <= k <= |sorted| ==> r[k] == KeyLine(sorted[k - 1]) && r[k][|r[k]| - 1] == ',')
  }

  /**
   * An object with `n` fields prints as `n + 2` lines: `{`, then one line per
   * field of the sorted object, then `}`; every field line, the last one
   * included, ends with a comma.
   */
  lemma ObjectLinesShape(fields: seq<Field>)
    ensures |ObjectLines(SortByKey(fields, KeyOf))| == |fields| + 2
    ensures PrintedAs(ObjectLines(SortByKey(fields, KeyOf)), SortByKey(fields, KeyOf))
  {
    var sorted := SortByKey(fields, KeyOf);
    var lines := KeyLines(sorted);
    var r := ObjectLines(sorted);
    assert |r| == |fields| + 2;
    forall k | 1 <= k <= |fields|
      ensures r[k] == KeyLine(sorted[k - 1]) && r[k][|r[k]| - 1] == ','
    {
      assert r[k] == lines[k - 1];
      KeyLinesAt(sorted, k - 1);
      KeyLineEndsWithComma(sorted[k - 1]);
    }
  }

  /**
   * The field lines follow ascending keys and hold the object's fields, each
   * exactly once; when the keys are distinct, as in a parsed JSON object,
   * the keys strictly ascend and the lines do not depend on the order the
   * fields were collected in.
   */
  lemma ObjectFieldsSorted(fields: seq<Field>)
    ensures Sorted(SortByKey(fields, KeyOf), KeyOf)
    ensures multiset(SortByKey(fields, KeyOf)) == multiset(fields)
    ensures DistinctKeys(fields, KeyOf) ==> Ascending(SortByKey(fields, KeyOf), KeyOf)
  {
    var sorted := SortByKey(fields, KeyOf);
    SortByKeySorted(fields, KeyOf);
    SortByKeyPermutation(fields, KeyOf);
    if DistinctKeys(fields, KeyOf) {
      DistinctKeysPermutation(fields, sorted, KeyOf);
      SortedDistinctAscending(sorted, KeyOf);
    }
  }

  /** Two collections of the same fields with distinct keys print identically. */
  lemma ObjectLinesOrderIrrelevant(fields: seq<Field>, other: seq<Field>)
    requires DistinctKeys(fields, KeyOf) && multiset(fields) == multiset(other)
    ensures ObjectLines(SortByKey(fields, KeyOf)) == ObjectLines(SortByKey(other, KeyOf))
  {
    SortByKeyOrderIrrelevant(fields, other, KeyOf);
  }

  // ---------------------------------------------------------------------------
  // The status check

  /** `StatusCode::as_u16`. */
  type StatusCode = n: nat | n < 0x1_0000

  /** `StatusCode::is_success`: the 2xx range. */
  predicate IsSuccess(code: StatusCode) {
    200 <= code <= 299
  }

  const StatusPrefix: string := "Error: Request failed with status code: "

  /**
   * The line printed for a failed status: the prefix, the code in decimal and
   * a full stop. The code can be read back from the line.
   */
  function StatusLine(code: StatusCode): (line: string)
    ensures |line| > |StatusPrefix| + 1
    ensures line[..|StatusPrefix|] == StatusPrefix && line[|line| - 1] == '.'
    ensures forall k :: |StatusPrefix| <= k < |line| - 1 ==> IsDigit(line[k])
    ensures DecimalValue(line[|StatusPrefix|..|line| - 1]) == code
  {
    var line := StatusPrefix + Decimal(code) + ".";
    assert line[|StatusPrefix|..|line| - 1] == Decimal(code);
    assert forall k :: |StatusPrefix| <= k < |line| - 1 ==> line[k] == Decimal(code)[k - |StatusPrefix|];
    DecimalRoundTrip(code);
    line
  }

  const JsonAnnouncement: string := "Response body (JSON with sorted keys):"
  const TextAnnouncement: string := "Response body:\n"
}
