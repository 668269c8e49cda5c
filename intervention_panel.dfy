/** The recommendations panel: one card per recommendation, with an icon, a
    title made from the intervention type, a priority badge and either an
    approval or an execute button. */
module InterventionPanel {

  import opened Wrappers
  import opened Text
  import opened MockData

  datatype Icon = PhoneCall | CalendarClock | MessageSquare | FileText | AlertCircle

  /** `getIcon`: the icon of an intervention type name. */
  function IconFor(kind: string): (icon: Icon)
    ensures icon == FileText <==> kind == "credit_counseling" || kind == "restructure"
    ensures icon == AlertCircle <==>
      kind !in {"proactive_outreach", "payment_holiday", "reminder", "credit_counseling", "restructure"}
  {
    if kind == "proactive_outreach" then PhoneCall
    else if kind == "payment_holiday" then CalendarClock
    else if kind == "reminder" then MessageSquare
    else if kind == "credit_counseling" then FileText
    else if kind == "restructure" then FileText
    else AlertCircle
  }

  /** Every type the policy table produces has its own icon, never the fallback. */
  lemma KnownTypesHaveIcons(t: InterventionType)
    ensures IconFor(t.Name()) != AlertCircle
    ensures IconFor(t.Name()) == FileText <==> t == CreditCounseling || t == Restructure
  {
  }

  /** `getPriorityColor`: the badge classes of a priority name. */
  function PriorityColor(priority: string): (classes: string)
    ensures priority == "high" ==> classes == "bg-red-100 text-red-800 border-red-200"
    ensures priority == "medium" ==> classes == "bg-amber-100 text-amber-800 border-amber-200"
    ensures priority == "low" ==> classes == "bg-blue-100 text-blue-800 border-blue-200"
    ensures priority !in {"high", "medium", "low"} ==> classes == "bg-slate-100 text-slate-800 border-slate-200"
  {
    if priority == "high" then "bg-red-100 text-red-800 border-red-200"
    else if priority == "medium" then "bg-amber-100 text-amber-800 border-amber-200"
    else if priority == "low" then "bg-blue-100 text-blue-800 border-blue-200"
    else "bg-slate-100 text-slate-800 border-slate-200"
  }

  /** `word.charAt(0).toUpperCase() + word.slice(1)`. */
  function Capitalize(word: string): string
  {
    if word == [] then [] else [UpperChar(word[0])] + word[1..]
  }

  function CapitalizeAll(words: seq<string>): (r: seq<string>)
    ensures |r| == |words|
    ensures forall k :: 0 <= k < |words| ==> r[k] == Capitalize(words[k])
  {
    if words == [] then [] else [Capitalize(words[0])] + CapitalizeAll(words[1..])
  }

  /** `formatInterventionType`: split on '_', capitalise each piece, join with ' '. */
  function FormatInterventionType(kind: string): string
  {
    Join(CapitalizeAll(Split(kind, '_')), ' ')
  }

  /** A character-by-character reading of the same formatting: an underscore
      becomes a space, the first character of each word is upper-cased, and
      every other character is kept. */
  function TitleCase(s: string, atWordStart: bool): (r: string)
    ensures |r| == |s|
  {
    if s == [] then []
    else
      [if s[0] == '_' then ' ' else if atWordStart then UpperChar(s[0]) else s[0]]
      + TitleCase(s[1..], s[0] == '_')
  }

  /** The same as `FormatInterventionType`, except that the first word is left as it is. */
  function FormatAfterFirst(kind: string): string
  {
    var words := Split(kind, '_');
    Join([words[0]] + CapitalizeAll(words[1..]), ' ')
  }

  lemma {:induction false} FormatIsTitleCase(s: string)
    ensures FormatInterventionType(s) == TitleCase(s, true)
    ensures FormatAfterFirst(s) == TitleCase(s, false)
  {
    if s != [] {
      FormatIsTitleCase(s[1..]);
      var rest := Split(s[1..], '_');
      var tail := CapitalizeAll(rest[1..]);
      assert CapitalizeAll(rest) == [Capitalize(rest[0])] + tail;
      if s[0] == '_' {
        assert Split(s, '_') == [[]] + rest;
        assert CapitalizeAll([[]] + rest) == [[]] + CapitalizeAll(rest);
        assert ([[]] + rest)[1..] == rest;
      } else {
        var ws := Split(s, '_');
        assert ws == [[s[0]] + rest[0]] + rest[1..];
        assert ws[1..] == rest[1..];
        assert CapitalizeAll(ws) == [Capitalize(ws[0])] + tail;
        assert Capitalize(ws[0]) == [UpperChar(s[0])] + rest[0];
        if |rest| == 1 {
          assert FormatAfterFirst(s[1..]) == rest[0];
        } else {
          assert FormatAfterFirst(s[1..]) == rest[0] + [' '] + Join(tail, ' ');
        }
      }
    }
  }

  /** Formatting keeps the length, turns every '_' into ' ' and leaves no '_',
      upper-cases the character at the start of each word, and keeps every other
      character. */
  lemma FormatShape(s: string)
    ensures |FormatInterventionType(s)| == |s|
    ensures '_' !in FormatInterventionType(s)
    ensures forall i {:trigger FormatInterventionType(s)[i]} :: 0 <= i < |s| ==>
      FormatInterventionType(s)[i] == (if s[i] == '_' then ' ' else if i == 0 || s[i - 1] == '_' then UpperChar(s[i]) else s[i])
  {
    FormatIsTitleCase(s);
    TitleCaseAt(s, true);
    forall i | 0 <= i < |s|
      ensures FormatInterventionType(s)[i] == (if s[i] == '_' then ' ' else if i == 0 || s[i - 1] == '_' then UpperChar(s[i]) else s[i])
    {
      assert FormatInterventionType(s)[i] == TitleCell(s, true, i);
    }
  }

  /** The character at position `i` of `TitleCase(s, atWordStart)`. */
  function TitleCell(s: string, atWordStart: bool, i: nat): char
    requires i < |s|
  {
    if s[i] == '_' then ' '
    else if (if i == 0 then atWordStart else s[i - 1] == '_') then UpperChar(s[i])
    else s[i]
  }

  lemma {:induction false} TitleCaseAt(s: string, atWordStart: bool)
    ensures forall i :: 0 <= i < |s| ==> TitleCase(s, atWordStart)[i] == TitleCell(s, atWordStart, i)
    ensures '_' !in TitleCase(s, atWordStart)
  {
    if s != [] {
      var b := s[0] == '_';
      TitleCaseAt(s[1..], b);
      var r := TitleCase(s, atWordStart);
      var t := TitleCase(s[1..], b);
      assert r == [r[0]] + t;
      forall i | 0 < i < |s|
        ensures r[i] == TitleCell(s, atWordStart, i)
      {
        assert r[i] == t[i - 1] == TitleCell(s[1..], b, i - 1);
        assert s[1..][i - 1] == s[i];
        if i > 1 {
          assert s[1..][i - 2] == s[i - 1];
        }
      }
    }
  }

  lemma FormatExample(s: string)
    requires s == "proactive_outreach"
    ensures FormatInterventionType(s) == "Proactive Outreach"
  {
    var e := "Proactive Outreach";
    assert |s| == |e| == 18;
    assert e[1..9] == s[1..9] == "roactive" && e[11..] == s[11..] == "utreach";
    assert '_' !in s[1..9] && '_' !in s[10..];
    FormatShape(s);
    var r := FormatInterventionType(s);
    forall i | 0 <= i < |s|
      ensures r[i] == e[i]
    {
      if 0 < i < 9 {
        assert e[i] == e[1..9][i - 1] && s[i] == s[1..9][i - 1];
        assert s[i - 1] != '_' by { if i > 1 { assert s[i - 1] == s[1..9][i - 2]; } }
      } else if 10 < i {
        assert e[i] == e[11..][i - 11] && s[i] == s[10..][i - 10] && s[i - 1] == s[10..][i - 11];
      } else {
        assert UpperChar('p') == 'P' && UpperChar('o') == 'O';
      }
    }
  }

  datatype Action = SubmitForApproval | ExecuteNow

  /** What one card of the panel shows. */
  datatype Card = Card(
    title: string,
    icon: Icon,
    accent: string,
    badge: string,
    badgeClasses: string,
    action: Action,
    recommendation: Recommendation)

  /** The left border colour of a card: red, amber, or blue for anything else. */
  function Accent(priority: string): string
  {
    if priority == "high" then "#DC2626" else if priority == "medium" then "#F59E0B" else "#3B82F6"
  }

  function CardFor(rec: Recommendation): Card
  {
    Card(FormatInterventionType(rec.kind.Name()), IconFor(rec.kind.Name()), Accent(rec.priority.Name()),
         ToUpper(rec.priority.Name()), PriorityColor(rec.priority.Name()),
         if rec.requiresApproval then SubmitForApproval else ExecuteNow, rec)
  }

  /** The panel: one card per recommendation, in the order given; the badge is
      the priority in capitals; the only button offered is "Submit for
      Approval" when approval is required and "Execute Now" otherwise. */
  function Cards(recs: seq<Recommendation>): (cards: seq<Card>)
    ensures |cards| == |recs|
    ensures forall i :: 0 <= i < |recs| ==>
      && cards[i].recommendation == recs[i]
      && cards[i].badge == ToUpper(recs[i].priority.Name())
      && (cards[i].action == SubmitForApproval <==> recs[i].requiresApproval)
  {
    seq(|recs|, i requires 0 <= i < |recs| => CardFor(recs[i]))
  }

  lemma BadgeValues(p: Priority)
    ensures ToUpper(p.Name()) == match p case Low => "LOW" case Medium => "MEDIUM" case High => "HIGH"
  {
  }

  /** The callback a button press reaches, when the page supplied it. */
  datatype Callback = OnApprove(approved: Recommendation) | OnExecute(executed: Recommendation)

  /** Pressing the button of a recommendation's card: `onApprove?.(rec)` when
      it requires approval, `onExecute?.(rec)` otherwise; an absent callback
      makes the press do nothing. */
  function Press(rec: Recommendation, hasOnApprove: bool, hasOnExecute: bool): (cb: Option<Callback>)
    ensures cb.Some? && cb.value.OnExecute? ==> !rec.requiresApproval
    ensures cb.Some? && cb.value.OnApprove? ==> rec.requiresApproval
    ensures cb.Some? <==> (if rec.requiresApproval then hasOnApprove else hasOnExecute)
    ensures cb.Some? ==> (|| (cb.value.OnApprove? && cb.value.approved == rec)
                          || (cb.value.OnExecute? && cb.value.executed == rec))
  {
    if rec.requiresApproval then
      (if hasOnApprove then Some(OnApprove(rec)) else None)
    else
      (if hasOnExecute then Some(OnExecute(rec)) else None)
  }

  /** Approval gating: for any customer, no press on the panel's cards can
      execute a recommendation that requires approval, and with both callbacks
      present every press reaches exactly one of them. */
  lemma ApprovalGated(c: Customer, i: nat)
    requires i < |InterventionRecommendations(c)|
    ensures var rec := InterventionRecommendations(c)[i];
      && Cards(InterventionRecommendations(c))[i].action == (if rec.requiresApproval then SubmitForApproval else ExecuteNow)
      && Press(rec, true, true).Some?
      && (Press(rec, true, true).value.OnExecute? <==> !(c.riskScore >= 0.7 && rec.kind in {PaymentHoliday, Restructure}))
  {
    ApprovalOnlyInHighBand(c, i);
  }
}
