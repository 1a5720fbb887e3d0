/** The home page: counts and a money total over the stored quotes, the three most recently
    added materials, and which cards are shown for the current contents of the stores. */
module Dashboard {
  import opened Domain
  import opened Seqs

  /** `quotes.reduce((sum, quote) => sum + quote.totalCost, 0)`: the running sum taken from the
      first quote to the last. */
  function TotalQuotesValue(quotes: seq<Quote>): (r: real)
    ensures quotes == [] ==> r == 0.0
    ensures (forall i :: 0 <= i < |quotes| ==> quotes[i].totalCost >= 0.0) ==> r >= 0.0
  {
    if quotes == [] then 0.0
    else TotalQuotesValue(quotes[..|quotes| - 1]) + quotes[|quotes| - 1].totalCost
  }

  /** The total of two lists of quotes put together is the sum of their totals. */
  lemma {:induction false} TotalQuotesValueConcat(a: seq<Quote>, b: seq<Quote>)
    ensures TotalQuotesValue(a + b) == TotalQuotesValue(a) + TotalQuotesValue(b)
    decreases |b|
  {
    if b == [] {
      assert a + b == a;
    } else {
      var b' := b[..|b| - 1];
      assert (a + b)[..|a + b| - 1] == a + b';
      TotalQuotesValueConcat(a, b');
    }
  }

  /** With no negative totals, each quote's total is at most the sum over all of them. */
  lemma TotalQuotesValueBoundsEach(quotes: seq<Quote>, k: int)
    requires forall i :: 0 <= i < |quotes| ==> quotes[i].totalCost >= 0.0
    requires 0 <= k < |quotes|
    ensures quotes[k].totalCost <= TotalQuotesValue(quotes)
  {
    assert quotes == quotes[..k] + [quotes[k]] + quotes[k + 1..];
    TotalQuotesValueConcat(quotes[..k] + [quotes[k]], quotes[k + 1..]);
    TotalQuotesValueConcat(quotes[..k], [quotes[k]]);
    assert [quotes[k]][..0] == [];
  }

  /** `materials.slice(-3).reverse()`: up to three of the most recently added materials, the
      newest first. */
  function RecentMaterials(materials: seq<Material>): (r: seq<Material>)
    ensures |r| == if |materials| < 3 then |materials| else 3
    ensures forall i :: 0 <= i < |r| ==> r[i] == materials[|materials| - 1 - i]
    ensures r == [] <==> materials == []
  {
    Reverse(LastN(materials, 3))
  }

  /** What the home page shows for given stores. `recentQuotes` comes from the quotes store,
      whose selection is not part of this model. */
  datatype View = View(
    totalMaterials: nat,
    totalQuotes: nat,
    totalQuotesValue: real,
    showSummary: bool,
    showHistoryLink: bool,
    showRecentMaterials: bool,
    recentMaterials: seq<Material>,
    showRecentQuotes: bool,
    showEmptyState: bool,
    showMaterialsOnly: bool)

  function HomePage(materials: seq<Material>, quotes: seq<Quote>, recentQuotes: seq<Quote>): (v: View)
    ensures v.totalMaterials == |materials| && v.totalQuotes == |quotes|
    ensures v.showSummary <==> quotes != []
    ensures v.showHistoryLink <==> quotes != []
    ensures v.showRecentMaterials <==> v.recentMaterials != []
    ensures v.showEmptyState <==> materials == [] && quotes == []
    ensures v.showMaterialsOnly <==> materials != [] && quotes == []
    ensures v.totalQuotesValue == TotalQuotesValue(quotes)
    ensures v.recentMaterials == RecentMaterials(materials)
    ensures v.showRecentMaterials <==> materials != []
    ensures v.showRecentQuotes <==> recentQuotes != []
  {
    var totalMaterials := |materials|;
    var totalQuotes := |quotes|;
    View(totalMaterials, totalQuotes, TotalQuotesValue(quotes),
         totalQuotes > 0, totalQuotes > 0,
         |materials| > 0, RecentMaterials(materials),
         |recentQuotes| > 0,
         |materials| == 0 && totalQuotes == 0,
         |materials| > 0 && totalQuotes == 0)
  }

  /** Exactly one of the summary card, the empty-state card and the materials-only card is
      shown, whatever the stores hold. */
  lemma OneMainCard(materials: seq<Material>, quotes: seq<Quote>, recentQuotes: seq<Quote>)
    ensures var v := HomePage(materials, quotes, recentQuotes);
      (v.showSummary || v.showEmptyState || v.showMaterialsOnly)
      && !(v.showSummary && v.showEmptyState)
      && !(v.showSummary && v.showMaterialsOnly)
      && !(v.showEmptyState && v.showMaterialsOnly)
  {
  }
}
