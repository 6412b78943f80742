/** The client-logo strip (src/components/home/ClientLogos.tsx): the logo
    list, the updates `handleEnhanceLogos` applies to it as each enhancement
    finishes, the success counter and the final notice, and what the strip
    shows. Fetching an image and the enhancement service are abstracted as
    each logo's outcome, and the order in which the outcomes arrive is a
    parameter. */
module ClientLogos {
  import opened Options
  import Strings
  import opened Sequences
  import opened Toasts

  datatype Logo = Logo(id: int, name: string, originalSrc: string, enhancedSrc: Option<string>, isEnhancing: bool)

  // ---------------------------------------------------------------------------
  // The initial list

  /** An Unsplash image of the strip's size, by photo id. */
  function PhotoUrl(photo: string): string {
    "https://images.unsplash.com/photo-" + photo + "?auto=format&fit=crop&w=300&q=80"
  }

  /** `initialLogos`, each starting with no enhanced image and not enhancing. */
  function InitialLogos(): seq<Logo> {
    [ Logo(1, "TechCorp", PhotoUrl("1464983953574-0892a716854b"), None, false),
      Logo(2, "Innovate Inc.", PhotoUrl("1506744038136-46273834b3fb"), None, false),
      Logo(3, "Global Solutions", PhotoUrl("1465101046530-73398c7f28ca"), None, false),
      Logo(4, "NextGen", PhotoUrl("1515378791036-0648a3ef77b2"), None, false),
      Logo(5, "Future Systems", PhotoUrl("1521737852567-6949f3f9f2b5"), None, false),
      Logo(6, "Quantum Leap", PhotoUrl("1519125323398-675f0ddb6308"), None, false),
      Logo(7, "Pioneer", PhotoUrl("1517841905240-472988babdf9"), None, false),
      Logo(8, "Synergy", PhotoUrl("1500534314209-a25ddb2bd429"), None, false) ]
  }

  /** No two logos share an id. */
  predicate DistinctIds(logos: seq<Logo>) {
    DistinctBy(logos, (l: Logo) => l.id)
  }

  /** The strip starts with eight logos numbered 1 to 8, none enhanced and
      none enhancing. */
  lemma InitialState()
    ensures |InitialLogos()| == 8 && DistinctIds(InitialLogos())
    ensures forall i :: 0 <= i < 8 ==>
      InitialLogos()[i].id == i + 1 && InitialLogos()[i].enhancedSrc.None? && !InitialLogos()[i].isEnhancing
  {
  }

  // ---------------------------------------------------------------------------
  // State updates

  /** `logos.map(l => ({ ...l, isEnhancing: true }))`. */
  function StartEnhancing(logos: seq<Logo>): (r: seq<Logo>)
    ensures |r| == |logos|
    ensures forall i :: 0 <= i < |r| ==> r[i].isEnhancing && r[i].(isEnhancing := logos[i].isEnhancing) == logos[i]
  {
    seq(|logos|, i requires 0 <= i < |logos| => logos[i].(isEnhancing := true))
  }

  /** How one logo's enhancement ended. */
  datatype Outcome = Enhanced(src: string) | Failed

  /** One finished enhancement: the logo's id and its outcome. */
  datatype Completion = Completion(id: int, outcome: Outcome)

  /** The success update: the logo with id `id` gets its enhanced image and
      stops enhancing; every other logo is left as it is. */
  function ApplySuccess(logos: seq<Logo>, id: int, src: string): (r: seq<Logo>)
    ensures |r| == |logos|
    ensures forall i :: 0 <= i < |r| && logos[i].id != id ==> r[i] == logos[i]
    ensures forall i :: 0 <= i < |r| && logos[i].id == id ==>
      r[i] == logos[i].(enhancedSrc := Some(src), isEnhancing := false)
  {
    seq(|logos|, i requires 0 <= i < |logos| =>
      if logos[i].id == id then logos[i].(enhancedSrc := Some(src), isEnhancing := false) else logos[i])
  }

  /** The failure update: the logo with id `id` stops enhancing and keeps its
      image; every other logo is left as it is. */
  function ApplyFailure(logos: seq<Logo>, id: int): (r: seq<Logo>)
    ensures |r| == |logos|
    ensures forall i :: 0 <= i < |r| && logos[i].id != id ==> r[i] == logos[i]
    ensures forall i :: 0 <= i < |r| && logos[i].id == id ==> r[i] == logos[i].(isEnhancing := false)
  {
    seq(|logos|, i requires 0 <= i < |logos| =>
      if logos[i].id == id then logos[i].(isEnhancing := false) else logos[i])
  }

  /** The update a completion triggers. */
  function Apply(logos: seq<Logo>, c: Completion): (r: seq<Logo>)
    ensures |r| == |logos|
    ensures forall i :: 0 <= i < |r| ==> r[i] == Step(logos[i], c)
  {
    match c.outcome
    case Enhanced(src) => ApplySuccess(logos, c.id, src)
    case Failed => ApplyFailure(logos, c.id)
  }

  /** What a completion does to a single logo. */
  function Step(l: Logo, c: Completion): Logo {
    if c.id != l.id then l
    else match c.outcome
      case Enhanced(src) => l.(enhancedSrc := Some(src), isEnhancing := false)
      case Failed => l.(isEnhancing := false)
  }

  /** Whether `c` is a successful enhancement of logo `id`. */
  predicate IsSuccessFor(c: Completion, id: int) {
    c.id == id && c.outcome.Enhanced?
  }

  /** One logo after a series of completions, applied in order. */
  function Track(l: Logo, events: seq<Completion>): (r: Logo)
    ensures r.id == l.id && r.name == l.name && r.originalSrc == l.originalSrc
    decreases |events|
  {
    if events == [] then l
    else
      var n := |events| - 1;
      Step(Track(l, events[..n]), events[n])
  }

  /** Some completion in `events` concerns logo `id`. */
  predicate Mentions(events: seq<Completion>, id: int) {
    exists k :: 0 <= k < |events| && events[k].id == id
  }

  /** A logo stops enhancing once a completion for it arrives, and only then. */
  lemma {:induction false} TrackSettles(l: Logo, events: seq<Completion>)
    ensures Track(l, events).isEnhancing <==> l.isEnhancing && !Mentions(events, l.id)
    decreases |events|
  {
    if events != [] {
      var n := |events| - 1;
      TrackSettles(l, events[..n]);
      if Mentions(events[..n], l.id) {
        var k :| 0 <= k < n && events[..n][k].id == l.id;
        assert events[k].id == l.id;
      }
      if Mentions(events, l.id) && events[n].id != l.id {
        var k :| 0 <= k < |events| && events[k].id == l.id;
        assert events[..n][k].id == l.id;
      }
    }
  }

  /** The index of the last successful completion for logo `id`, if any. */
  function LastSuccess(events: seq<Completion>, id: int): (r: Option<nat>)
    ensures r.Some? ==> r.value < |events| && IsSuccessFor(events[r.value], id)
    ensures r.Some? ==> forall j :: r.value < j < |events| ==> !IsSuccessFor(events[j], id)
    ensures r.None? ==> forall j :: 0 <= j < |events| ==> !IsSuccessFor(events[j], id)
    decreases |events|
  {
    if events == [] then None
    else
      var n := |events| - 1;
      if IsSuccessFor(events[n], id) then Some(n)
      else
        var r := LastSuccess(events[..n], id);
        assert forall j :: 0 <= j < n ==> events[..n][j] == events[j];
        r
  }

  /** A logo's image is the one from the last successful completion for it,
      or the one it had when none succeeded. */
  lemma {:induction false} TrackImage(l: Logo, events: seq<Completion>)
    ensures Track(l, events).enhancedSrc ==
      match LastSuccess(events, l.id)
      case Some(k) => Some(events[k].outcome.src)
      case None => l.enhancedSrc
    decreases |events|
  {
    if events != [] {
      var n := |events| - 1;
      TrackImage(l, events[..n]);
    }
  }

  /** The list after a series of completions: each logo tracked on its own. */
  function Run(logos: seq<Logo>, events: seq<Completion>): (r: seq<Logo>)
    ensures |r| == |logos|
    ensures forall i :: 0 <= i < |r| ==> r[i] == Track(logos[i], events)
    decreases |events|
  {
    if events == [] then logos
    else
      var n := |events| - 1;
      Apply(Run(logos, events[..n]), events[n])
  }

  // ---------------------------------------------------------------------------
  // One round of `handleEnhanceLogos`

  /** `order` lists each of the `n` logos' positions exactly once: the order
      in which their enhancements finish. */
  predicate IsPermutation(order: seq<nat>, n: nat) {
    && |order| == n
    && (forall k :: 0 <= k < n ==> order[k] < n)
    && (forall a, b :: 0 <= a < b < n ==> order[a] != order[b])
    && (forall i :: 0 <= i < n ==> Lists(order, i))
  }

  /** Position `i` occurs in `order`. */
  predicate Lists(order: seq<nat>, i: nat) {
    exists k :: 0 <= k < |order| && order[k] == i
  }

  /** The completions, in the order they finish. */
  function Completions(logos: seq<Logo>, outcomes: seq<Outcome>, order: seq<nat>): (events: seq<Completion>)
    requires |outcomes| == |logos| && IsPermutation(order, |logos|)
    ensures |events| == |logos|
    ensures forall k :: 0 <= k < |events| ==> events[k] == Completion(logos[order[k]].id, outcomes[order[k]])
  {
    seq(|order|, k requires 0 <= k < |order| => Completion(logos[order[k]].id, outcomes[order[k]]))
  }

  /** The number of successful outcomes. */
  function SuccessCount(outcomes: seq<Outcome>): (n: nat)
    ensures n <= |outcomes|
    ensures n == |outcomes| <==> forall i :: 0 <= i < |outcomes| ==> outcomes[i].Enhanced?
    decreases |outcomes|
  {
    if outcomes == [] then 0
    else
      var n := |outcomes| - 1;
      assert forall i :: 0 <= i < n ==> outcomes[..n][i] == outcomes[i];
      SuccessCount(outcomes[..n]) + (if outcomes[n].Enhanced? then 1 else 0)
  }

  /** One outcome counts one exactly when it is a success. */
  lemma SuccessCountSingle(o: Outcome)
    ensures SuccessCount([o]) == if o.Enhanced? then 1 else 0
  {
    assert [o][..0] == [];
  }

  /** Counting adds up over consecutive runs of outcomes; with
      `SuccessCountSingle`, the count is the number of successes. */
  lemma {:induction false} SuccessCountAppend(a: seq<Outcome>, b: seq<Outcome>)
    ensures SuccessCount(a + b) == SuccessCount(a) + SuccessCount(b)
    decreases |b|
  {
    if b == [] {
      assert a + b == a;
    } else {
      var m := |b| - 1;
      assert (a + b)[..|a + b| - 1] == a + b[..m];
      SuccessCountAppend(a, b[..m]);
    }
  }

  /** The state at the end of a round. */
  datatype Round = Round(logos: seq<Logo>, successCount: nat, toast: Toast)

  /** The notice shown when every enhancement has finished. */
  function Summary(successCount: nat, total: nat): Toast {
    Toast("Enhancement Complete",
      Strings.NatToString(successCount) + " out of " + Strings.NatToString(total) +
      " logos were successfully enhanced.",
      successCount < total)
  }

  /** `handleEnhanceLogos` for the list `logos`, where logo `i` ends with
      `outcomes[i]` and the enhancements finish in `order`. */
  function HandleEnhanceLogos(logos: seq<Logo>, outcomes: seq<Outcome>, order: seq<nat>): (r: Round)
    requires |outcomes| == |logos| && IsPermutation(order, |logos|)
    ensures |r.logos| == |logos| && r.successCount == SuccessCount(outcomes)
    ensures forall i :: 0 <= i < |logos| ==>
      && !r.logos[i].isEnhancing
      && r.logos[i].id == logos[i].id && r.logos[i].name == logos[i].name
      && r.logos[i].originalSrc == logos[i].originalSrc
    ensures r.toast.destructive <==> r.successCount < |logos|
    ensures r.toast.destructive <==> exists i :: 0 <= i < |logos| && outcomes[i].Failed?
    ensures r.toast.title == "Enhancement Complete"
    ensures r.toast.description == Strings.NatToString(SuccessCount(outcomes)) + " out of "
      + Strings.NatToString(|logos|) + " logos were successfully enhanced."
  {
    var final := Run(StartEnhancing(logos), Completions(logos, outcomes, order));
    AllSettled(logos, outcomes, order);
    var count := SuccessCount(outcomes);
    Round(final, count, Summary(count, |logos|))
  }

  /** Every logo gets a completion, so none is still enhancing at the end. */
  lemma AllSettled(logos: seq<Logo>, outcomes: seq<Outcome>, order: seq<nat>)
    requires |outcomes| == |logos| && IsPermutation(order, |logos|)
    ensures var final := Run(StartEnhancing(logos), Completions(logos, outcomes, order));
      |final| == |logos| &&
      forall i :: 0 <= i < |logos| ==>
        && !final[i].isEnhancing
        && final[i].id == logos[i].id && final[i].name == logos[i].name
        && final[i].originalSrc == logos[i].originalSrc
  {
    var events := Completions(logos, outcomes, order);
    var started := StartEnhancing(logos);
    forall i | 0 <= i < |logos|
      ensures !Track(started[i], events).isEnhancing
    {
      assert Lists(order, i);
      var k :| 0 <= k < |order| && order[k] == i;
      assert events[k].id == started[i].id;
      TrackSettles(started[i], events);
    }
  }

  /** With distinct ids each logo receives exactly its own outcome: a success
      installs the enhanced image, a failure keeps the image it had. */
  lemma OwnOutcome(logos: seq<Logo>, outcomes: seq<Outcome>, order: seq<nat>, i: nat)
    requires |outcomes| == |logos| && IsPermutation(order, |logos|) && DistinctIds(logos)
    requires i < |logos|
    ensures HandleEnhanceLogos(logos, outcomes, order).logos[i].enhancedSrc ==
      (if outcomes[i].Enhanced? then Some(outcomes[i].src) else logos[i].enhancedSrc)
  {
    var events := Completions(logos, outcomes, order);
    var started := StartEnhancing(logos);
    assert Lists(order, i);
    var k :| 0 <= k < |order| && order[k] == i;
    // Only the k-th completion concerns logo i.
    forall j | 0 <= j < |events| && j != k
      ensures events[j].id != started[i].id
    {
      assert order[j] != order[k];
      if order[j] < i {
        assert logos[order[j]].id != logos[i].id;
      } else {
        assert logos[i].id != logos[order[j]].id;
      }
    }
    assert HandleEnhanceLogos(logos, outcomes, order).logos[i] == Track(started[i], events);
    TrackImage(started[i], events);
    var last := LastSuccess(events, started[i].id);
    if outcomes[i].Enhanced? {
      assert IsSuccessFor(events[k], started[i].id);
      assert last == Some(k);
    } else {
      assert last.None?;
    }
  }

  /** With distinct ids a logo ends the round exactly as it was, except that
      it has stopped enhancing and holds its own outcome's image if that
      outcome was a success. */
  lemma FinalLogo(logos: seq<Logo>, outcomes: seq<Outcome>, order: seq<nat>, i: nat)
    requires |outcomes| == |logos| && IsPermutation(order, |logos|) && DistinctIds(logos)
    requires i < |logos|
    ensures HandleEnhanceLogos(logos, outcomes, order).logos[i] ==
      logos[i].(enhancedSrc := if outcomes[i].Enhanced? then Some(outcomes[i].src) else logos[i].enhancedSrc,
                isEnhancing := false)
  {
    OwnOutcome(logos, outcomes, order, i);
  }

  /** With distinct ids the final list does not depend on the order in which
      the enhancements finish. */
  lemma OrderIrrelevant(logos: seq<Logo>, outcomes: seq<Outcome>, order1: seq<nat>, order2: seq<nat>)
    requires |outcomes| == |logos| && DistinctIds(logos)
    requires IsPermutation(order1, |logos|) && IsPermutation(order2, |logos|)
    ensures HandleEnhanceLogos(logos, outcomes, order1) == HandleEnhanceLogos(logos, outcomes, order2)
  {
    var a := HandleEnhanceLogos(logos, outcomes, order1).logos;
    var b := HandleEnhanceLogos(logos, outcomes, order2).logos;
    forall i | 0 <= i < |logos|
      ensures a[i] == b[i]
    {
      FinalLogo(logos, outcomes, order1, i);
      FinalLogo(logos, outcomes, order2, i);
    }
    assert a == b;
  }

  // ---------------------------------------------------------------------------
  // Display

  /** `[...logos, ...logos]`: the list twice, for the endless scroll. */
  function LogosToDisplay(logos: seq<Logo>): (r: seq<Logo>)
    ensures |r| == 2 * |logos|
    ensures forall i :: 0 <= i < |r| ==> r[i] == logos[i % |logos|]
  {
    logos + logos
  }

  /** What a logo's tile shows: None for the loading skeleton, otherwise the
      image source, preferring a non-empty enhanced image. */
  function Shown(l: Logo): (r: Option<string>)
    ensures r.None? <==> l.isEnhancing
    ensures !l.isEnhancing && l.enhancedSrc.Some? && l.enhancedSrc.value != "" ==> r == l.enhancedSrc
    ensures !l.isEnhancing && (l.enhancedSrc.None? || l.enhancedSrc.value == "") ==> r == Some(l.originalSrc)
  {
    if l.isEnhancing then None
    else if l.enhancedSrc.Some? && l.enhancedSrc.value != "" then l.enhancedSrc
    else Some(l.originalSrc)
  }

  /** Once enhancement starts, every tile of the strip shows the skeleton. */
  lemma SkeletonsWhileEnhancing(logos: seq<Logo>)
    ensures var shown := LogosToDisplay(StartEnhancing(logos));
      forall i :: 0 <= i < |shown| ==> Shown(shown[i]).None?
  {
  }

  /** After a round every tile shows an image again: the enhanced one for a
      logo whose enhancement succeeded with a non-empty result, the original
      one for a logo that failed and had no enhanced image before. */
  lemma ShownAfterRound(logos: seq<Logo>, outcomes: seq<Outcome>, order: seq<nat>, i: nat)
    requires |outcomes| == |logos| && IsPermutation(order, |logos|) && DistinctIds(logos)
    requires i < |logos|
    ensures Shown(HandleEnhanceLogos(logos, outcomes, order).logos[i]).Some?
    ensures outcomes[i].Enhanced? && outcomes[i].src != "" ==>
      Shown(HandleEnhanceLogos(logos, outcomes, order).logos[i]) == Some(outcomes[i].src)
    ensures outcomes[i].Failed? && logos[i].enhancedSrc.None? ==>
      Shown(HandleEnhanceLogos(logos, outcomes, order).logos[i]) == Some(logos[i].originalSrc)
  {
    OwnOutcome(logos, outcomes, order, i);
  }
}
