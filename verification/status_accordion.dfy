/** `StatusAccordion` (endor-frontend/src/components/EndorComponent/StatusAccordian.tsx):
    one row of the findings page, classifying a finding count against two
    thresholds. Only the values the component computes are modelled, not
    the elements it renders. */
module StatusAccordion {
  import opened JsString

  datatype Status = StatusError | StatusWarning | StatusOK

  /** Severity order: OK < Warning < Error. */
  function Rank(s: Status): nat {
    match s
    case StatusOK => 0
    case StatusWarning => 1
    case StatusError => 2
  }

  /** The status: Error above the error threshold, checked first; Warning
      above the warning threshold; OK otherwise. */
  function ChooseStatus(count: nat, warningThreshold: int, errorThreshold: int): (s: Status)
    ensures s == StatusError <==> count > errorThreshold
    ensures s == StatusWarning <==> count <= errorThreshold && count > warningThreshold
    ensures s == StatusOK <==> count <= errorThreshold && count <= warningThreshold
  {
    if count > errorThreshold then StatusError
    else if count > warningThreshold then StatusWarning
    else StatusOK
  }

  /** `findingText`: singular for exactly one finding. */
  function FindingText(count: nat): (t: string)
    ensures t == "Finding" <==> count == 1
    ensures t == "Findings" <==> count != 1
  {
    if count == 1 then "Finding" else "Findings"
  }

  /** The text of the status element. */
  function StatusLine(title: string, count: nat, status: Status, findingText: string): string {
    if status == StatusOK then title + ": Nothing to report"
    else title + ": " + NatToString(count) + " " + findingText
  }

  /** The accordion summary's `id`: the title in lower case with every
      space replaced by "-". */
  function Slug(title: string): (id: string)
    requires IsAscii(title)
    ensures |id| == |title|
    ensures forall i :: 0 <= i < |id| ==> id[i] != ' ' && !('A' <= id[i] <= 'Z')
    ensures forall i :: 0 <= i < |id| ==>
      id[i] == (if title[i] == ' ' then '-' else LowerChar(title[i]))
  {
    ReplaceAllChar(LowerCase(title), ' ', '-')
  }

  /** The details text: the first "{count}" of the explanation replaced by
      the count's decimal digits. */
  function Details(explanation: string, count: nat): string {
    ReplaceFirst(explanation, "{count}", NatToString(count))
  }

  /** What the component computes from its properties. */
  datatype View = View(id: string, status: Status, statusLine: string, details: string, showAction: bool)

  function Render(title: string, count: nat, explanation: string, warningThreshold: int, errorThreshold: int): (v: View)
    requires IsAscii(title)
    ensures v.status == ChooseStatus(count, warningThreshold, errorThreshold)
    ensures v.showAction <==> count > 0
    ensures v.id == Slug(title)
    ensures v.details == Details(explanation, count)
    ensures v.statusLine == StatusLine(title, count, v.status, FindingText(count))
  {
    var status := ChooseStatus(count, warningThreshold, errorThreshold);
    View(Slug(title), status, StatusLine(title, count, status, FindingText(count)),
         Details(explanation, count), count > 0)
  }

  /** More findings never give a milder status. */
  lemma StatusMonotone(count: nat, count': nat, warningThreshold: int, errorThreshold: int)
    requires count <= count'
    ensures Rank(ChooseStatus(count, warningThreshold, errorThreshold))
         <= Rank(ChooseStatus(count', warningThreshold, errorThreshold))
  {
  }

  /** The button does not follow the status: a row can be OK and still offer
      "Show Me", e.g. one finding with a warning threshold of 1. */
  lemma OkWithAction()
    ensures var v := Render("Malware", 1, "", 1, 5);
      v.status == StatusOK && v.showAction && v.statusLine == "Malware: Nothing to report"
  {
  }

  /** The id is already a slug: slugging it again changes nothing. */
  lemma SlugIdempotent(title: string)
    requires IsAscii(title)
    ensures IsAscii(Slug(title)) && Slug(Slug(title)) == Slug(title)
  {
    var id := Slug(title);
    assert forall i :: 0 <= i < |id| ==> id[i] as int < 128;
  }

  /** An example: "License Risk" becomes "license-risk". */
  lemma SlugExample()
    ensures Slug("License Risk") == "license-risk"
  {
  }

  /** When the explanation is `a + "{count}" + b` and `a` holds no
      "{count}", the details are `a`, the count's digits, then `b`
      unchanged, including any further "{count}" in `b`. */
  lemma DetailsSubstitutesFirst(a: string, b: string, count: nat)
    requires !Includes(a, "{count}")
    ensures Details(a + "{count}" + b, count) == a + NatToString(count) + b
  {
    var pat := "{count}";
    var s := a + pat + b;
    forall j | 0 <= j < |a|
      ensures !OccursAt(s, pat, j)
    {
      if j + 7 <= |a| {
        // A match inside `a` would be a match of `a` itself.
        assert s[j..j + 7] == a[j..j + 7];
        assert !OccursAt(a, pat, j);
      } else if j + 7 <= |s| {
        // A match running into the placeholder would put its "{" at an
        // inner position of "{count}", which holds no "{".
        var k := |a| - j;
        assert s[j..j + 7][k] == s[|a|] == '{';
        assert pat[k] != '{';
      }
    }
    ReplaceFirstSplit(a, pat, b, NatToString(count));
  }

  /** The details tell counts apart: two different counts never give the
      same text from an explanation with a placeholder. */
  lemma DetailsDistinguishCounts(a: string, b: string, m: nat, n: nat)
    requires !Includes(a, "{count}")
    requires Details(a + "{count}" + b, m) == Details(a + "{count}" + b, n)
    ensures m == n
  {
    DetailsSubstitutesFirst(a, b, m);
    DetailsSubstitutesFirst(a, b, n);
    var x, y := NatToString(m), NatToString(n);
    assert |a + x + b| == |a + y + b|;
    assert x == (a + x + b)[|a|..|a| + |x|];
    assert y == (a + y + b)[|a|..|a| + |y|];
    NatToStringInjective(m, n);
  }

  /** Only the first occurrence is replaced. */
  lemma DetailsExample()
    ensures Details("{count} new, {count} total", 12) == "12 new, {count} total"
  {
    var s := "{count} new, {count} total";
    assert OccursAt(s, "{count}", 0) by {
      assert s[0..7] == "{count}";
    }
    assert IndexOf(s, "{count}").Some? && IndexOf(s, "{count}").value == 0;
    assert s[7..] == " new, {count} total";
    assert NatToString(12) == "1" + "2" by {
      assert NatToString(1) == "1";
    }
  }

  /** Without a "{count}" the explanation is shown as it is. */
  lemma DetailsWithoutPlaceholder(explanation: string, count: nat)
    requires !Includes(explanation, "{count}")
    ensures Details(explanation, count) == explanation
  {
    ReplaceFirstAbsent(explanation, "{count}", NatToString(count));
  }
}
