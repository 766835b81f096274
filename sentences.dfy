/** The batch of NMEA 0183 sentences a server generates on each tick
    (generateSentences, identical in pkg/network/tcp.go and
    pkg/network/websocket.go): the enabled groups, in a fixed order. The text
    of each sentence comes from generators that draw random values; the model
    takes that text as a parameter. */
module Sentences {
  import opened Bytes
  import opened Network

  /** The sentence types, by their formatter names. */
  datatype Talker = GGA | GLL | RMC | HDT | VTG | XTE | DBT | MTW | MWV | VHW | DPT

  const POSITION_GROUP: seq<Talker> := [GGA, GLL]
  const NAVIGATION_GROUP: seq<Talker> := [RMC, HDT, VTG, XTE]
  const ENVIRONMENT_GROUP: seq<Talker> := [DBT, MTW, MWV, VHW, DPT]

  /** The sentence types of one tick: position, then navigation, then
      environment, each group only when enabled. */
  function Plan(opts: SentenceOptions): seq<Talker>
  {
    (if opts.enablePosition then POSITION_GROUP else []) +
    (if opts.enableNavigation then NAVIGATION_GROUP else []) +
    (if opts.enableEnvironment then ENVIRONMENT_GROUP else [])
  }

  function Ones(b: bool): nat { if b then 1 else 0 }

  /** The batch text for a plan, given what each generator returns this tick. */
  function Render(plan: seq<Talker>, gen: Talker -> seq<byte>): (r: seq<seq<byte>>)
    ensures |r| == |plan| && forall i :: 0 <= i < |plan| ==> r[i] == gen(plan[i])
  {
    if plan == [] then [] else [gen(plan[0])] + Render(plan[1..], gen)
  }

  /** generateSentences: append the enabled groups one after another. */
  method GenerateSentences(opts: SentenceOptions, gen: Talker -> seq<byte>) returns (sentences: seq<seq<byte>>)
    ensures sentences == Render(Plan(opts), gen)
  {
    sentences := [];
    if opts.enablePosition {
      sentences := sentences + [gen(GGA), gen(GLL)];
    }
    if opts.enableNavigation {
      sentences := sentences + [gen(RMC), gen(HDT), gen(VTG), gen(XTE)];
    }
    if opts.enableEnvironment {
      sentences := sentences + [gen(DBT), gen(MTW), gen(MWV), gen(VHW), gen(DPT)];
    }
    PlanRendered(opts, gen, sentences);
  }

  lemma PlanRendered(opts: SentenceOptions, gen: Talker -> seq<byte>, sentences: seq<seq<byte>>)
    requires |sentences| == |Plan(opts)|
    requires forall i :: 0 <= i < |sentences| ==> sentences[i] == gen(Plan(opts)[i])
    ensures sentences == Render(Plan(opts), gen)
  {
  }

  /** Two sentences for position, four for navigation, five for environment. */
  lemma PlanSize(opts: SentenceOptions)
    ensures |Plan(opts)| ==
      2 * Ones(opts.enablePosition) + 4 * Ones(opts.enableNavigation) + 5 * Ones(opts.enableEnvironment)
  {
  }

  /** A sentence type is generated exactly when its group is enabled, and at
      most once per tick. */
  lemma PlanMembership(opts: SentenceOptions, t: Talker)
    ensures t in Plan(opts) <==>
      (t in POSITION_GROUP && opts.enablePosition) ||
      (t in NAVIGATION_GROUP && opts.enableNavigation) ||
      (t in ENVIRONMENT_GROUP && opts.enableEnvironment)
    ensures forall i, j :: 0 <= i < j < |Plan(opts)| ==> Plan(opts)[i] != Plan(opts)[j]
  {
  }

  /** With every group enabled the order is GGA, GLL, RMC, HDT, VTG, XTE, DBT,
      MTW, MWV, VHW, DPT. */
  lemma FullPlan()
    ensures Plan(SentenceOptions(true, true, true)) == [GGA, GLL, RMC, HDT, VTG, XTE, DBT, MTW, MWV, VHW, DPT]
  {
  }
}
