/** The older plugin's `StatusAccordion`
    (plugins/endor/src/components/EndorComponent/StatusAccordian.tsx). Its
    status choice, id and details are computed by the same expressions as
    the newer component's and are shared with `StatusAccordion`; it differs
    in always saying "Findings". */
module LegacyStatusAccordion {
  import opened JsString
  import opened StatusAccordion

  /** What the older component computes from its properties: the status
      line always reads "Findings", even for a single finding. */
  function LegacyRender(title: string, count: nat, explanation: string, warningThreshold: int, errorThreshold: int): (v: View)
    requires IsAscii(title)
    ensures v.status == StatusError <==> count > errorThreshold
    ensures v.status == StatusWarning <==> count <= errorThreshold && count > warningThreshold
    ensures v.status == StatusOK <==> count <= errorThreshold && count <= warningThreshold
    ensures v.showAction <==> count > 0
    ensures v.id == Slug(title)
    ensures v.details == Details(explanation, count)
    ensures v.statusLine == StatusLine(title, count, v.status, "Findings")
  {
    var status := ChooseStatus(count, warningThreshold, errorThreshold);
    View(Slug(title), status, StatusLine(title, count, status, "Findings"), Details(explanation, count), count > 0)
  }

  /** The two components agree on every modelled value except the status
      line of a single finding that is not OK, where only the newer one
      says "1 Finding". */
  lemma AgreesWithNewerComponent(title: string, count: nat, explanation: string, warningThreshold: int, errorThreshold: int)
    requires IsAscii(title)
    ensures var legacy := LegacyRender(title, count, explanation, warningThreshold, errorThreshold);
      var newer := Render(title, count, explanation, warningThreshold, errorThreshold);
      && legacy.id == newer.id && legacy.status == newer.status
      && legacy.details == newer.details && legacy.showAction == newer.showAction
      && (legacy.statusLine == newer.statusLine <==> count != 1 || newer.status == StatusOK)
  {
    var status := ChooseStatus(count, warningThreshold, errorThreshold);
    if count == 1 && status != StatusOK {
      var prefix := title + ": " + NatToString(count) + " ";
      assert StatusLine(title, count, status, "Findings") == prefix + "Findings";
      assert StatusLine(title, count, status, "Finding") == prefix + "Finding";
      assert |prefix + "Findings"| != |prefix + "Finding"|;
    }
  }
}
