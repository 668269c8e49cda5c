/** The customer detail page: find the customer named by the route, then show
    the initials avatar, the risk-factor chart, the timeline and the
    recommendations panel. */
module CustomerDetail {

  import opened Wrappers
  import opened Text
  import opened MockData
  import InterventionPanel

  /** `customers.find(c => c.id === customerId)`: the first customer with that id. */
  function Find(customers: seq<Customer>, customerId: string): (found: Option<Customer>)
    ensures found.None? <==> forall i :: 0 <= i < |customers| ==> customers[i].id != customerId
    ensures found.Some? ==> exists i :: (0 <= i < |customers| && customers[i] == found.value
      && customers[i].id == customerId
      && forall k :: 0 <= k < i ==> customers[k].id != customerId)
  {
    if customers == [] then None
    else if customers[0].id == customerId then Some(customers[0])
    else
      var r := Find(customers[1..], customerId);
      assert r.Some? ==> exists i :: (0 <= i < |customers[1..]| && customers[1..][i] == r.value
        && customers[1..][i].id == customerId
        && forall k :: 0 <= k < i ==> customers[1..][k].id != customerId);
      assert r.Some? ==> exists i :: (0 <= i < |customers| && customers[i] == r.value
        && customers[i].id == customerId
        && forall k :: 0 <= k < i ==> customers[k].id != customerId) by {
        if r.Some? {
          var i :| 0 <= i < |customers[1..]| && customers[1..][i] == r.value
            && customers[1..][i].id == customerId
            && forall k :: 0 <= k < i ==> customers[1..][k].id != customerId;
          assert customers[i + 1] == r.value;
          forall k | 0 <= k < i + 1
            ensures customers[k].id != customerId
          {
            if k > 0 { assert customers[k] == customers[1..][k - 1]; }
          }
        }
      }
      assert r.None? ==> forall i :: 0 <= i < |customers| ==> customers[i].id != customerId by {
        if r.None? {
          forall i | 0 < i < |customers|
            ensures customers[i].id != customerId
          {
            assert customers[i] == customers[1..][i - 1];
          }
        }
      }
      r
  }

  /** `n[0]` of each word: its first character, or nothing for an empty word
      (the `undefined` that `join` renders as the empty string). */
  function FirstChar(word: string): string
  {
    if word == [] then [] else [word[0]]
  }

  function FirstChars(words: seq<string>): string
  {
    if words == [] then [] else FirstChar(words[0]) + FirstChars(words[1..])
  }

  /** The avatar text: `name.split(' ').map(n => n[0]).join('')`. */
  function Initials(name: string): string
  {
    FirstChars(Split(name, ' '))
  }

  /** The words of a split that are not empty, in order. */
  function NonEmptyWords(words: seq<string>): (r: seq<string>)
    ensures forall k :: 0 <= k < |r| ==> r[k] != []
  {
    if words == [] then []
    else (if words[0] == [] then [] else [words[0]]) + NonEmptyWords(words[1..])
  }

  /** Each character of the initials is the first character of one non-empty
      word, in order: empty words (from repeated spaces) contribute nothing. */
  lemma {:induction false} FirstCharsOfWords(words: seq<string>)
    ensures |FirstChars(words)| == |NonEmptyWords(words)|
    ensures forall k :: 0 <= k < |FirstChars(words)| ==> FirstChars(words)[k] == NonEmptyWords(words)[k][0]
  {
    if words != [] {
      FirstCharsOfWords(words[1..]);
      var rest := NonEmptyWords(words[1..]);
      if words[0] != [] {
        assert NonEmptyWords(words) == [words[0]] + rest;
        assert FirstChars(words) == [words[0][0]] + FirstChars(words[1..]);
      } else {
        assert NonEmptyWords(words) == rest;
      }
    }
  }

  lemma InitialsOfNonEmptyWords(name: string)
    ensures var words := NonEmptyWords(Split(name, ' '));
      && |Initials(name)| == |words|
      && forall k :: 0 <= k < |words| ==> Initials(name)[k] == words[k][0]
  {
    FirstCharsOfWords(Split(name, ' '));
  }

  /** A name without spaces yields a single word. */
  lemma {:induction false} SplitWithoutSeparator(s: string, sep: char)
    requires sep !in s
    ensures Split(s, sep) == [s]
  {
    if s != [] {
      SplitWithoutSeparator(s[1..], sep);
      assert [s[0]] + s[1..] == s;
    }
  }

  lemma {:induction false} SplitAround(a: string, b: string, sep: char)
    requires sep !in a && sep !in b
    ensures Split(a + [sep] + b, sep) == [a, b]
  {
    if a == [] {
      assert a + [sep] + b == [sep] + b;
      assert ([sep] + b)[1..] == b;
      SplitWithoutSeparator(b, sep);
    } else {
      SplitAround(a[1..], b, sep);
      assert (a + [sep] + b)[1..] == a[1..] + [sep] + b;
      assert [a[0]] + a[1..] == a;
    }
  }

  lemma InitialsExample(name: string)
    requires name == "Sarah Mitchell"
    ensures Initials(name) == "SM"
  {
    assert name == "Sarah" + [' '] + "Mitchell";
    SplitAround("Sarah", "Mitchell", ' ');
    assert FirstChars(["Sarah", "Mitchell"]) == "S" + FirstChars(["Mitchell"]);
  }

  /** One bar of the risk-factor chart: a label and its impact. */
  datatype RiskFactor = RiskFactor(factor: string, impact: real)

  /** `riskFactors`: always the same four factors, in the same order. */
  function RiskFactors(c: Customer): (fs: seq<RiskFactor>)
    ensures |fs| == 4
    ensures fs[0].factor == "Payment Delays" && fs[1].factor == "Utilization Rate"
    ensures fs[2].factor == "Payment Coverage" && fs[3].factor == "Days Since Payment"
    ensures fs[1].impact == c.utilizationRate && fs[2].impact == 1.0 - c.paymentCoverageRatio
  {
    [ RiskFactor("Payment Delays", c.averagePaymentDelay as real / 30.0),
      RiskFactor("Utilization Rate", c.utilizationRate),
      RiskFactor("Payment Coverage", 1.0 - c.paymentCoverageRatio),
      RiskFactor("Days Since Payment", c.daysSinceLastPayment as real / 30.0) ]
  }

  /** What the page renders: the not-found message, or the customer's detail. */
  datatype Page =
    | NotFound
    | Detail(customer: Customer, initials: string, factors: seq<RiskFactor>,
             timeline: seq<TimelineEvent>, cards: seq<InterventionPanel.Card>)

  /** The page for a route parameter: the not-found branch returns before the
      timeline or the recommendations are computed. */
  function View(customers: seq<Customer>, customerId: string): (page: Page)
    ensures page.NotFound? <==> Find(customers, customerId).None?
    ensures page.Detail? ==>
      && page.customer == Find(customers, customerId).value
      && page.customer.id == customerId
      && page.timeline == CustomerTimeline(customerId)
      && page.cards == InterventionPanel.Cards(InterventionRecommendations(page.customer))
      && 1 <= |page.cards| <= 3
  {
    match Find(customers, customerId)
    case None => NotFound
    case Some(customer) =>
      var recommendations := InterventionRecommendations(customer);
      RecommendationCount(customer, customer);
      Detail(customer, Initials(customer.name), RiskFactors(customer),
             CustomerTimeline(customerId), InterventionPanel.Cards(recommendations))
  }

  /** Each mock customer's detail page exists, and the two customers with a
      recorded history show it. */
  lemma MockPagesFound(customerId: string)
    requires customerId in {"C001", "C002", "C003", "C004", "C005", "C006", "C007", "C008"}
    ensures View(Customers, customerId).Detail?
    ensures customerId == "C001" ==> |View(Customers, customerId).timeline| == 10
  {
    var i := if customerId == "C001" then 0 else if customerId == "C002" then 1
      else if customerId == "C003" then 2 else if customerId == "C004" then 3
      else if customerId == "C005" then 4 else if customerId == "C006" then 5
      else if customerId == "C007" then 6 else 7;
    assert Customers[i].id == customerId;
  }
}
