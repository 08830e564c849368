/**
 * The blocked-request records GeckoView hands to the activity, and the
 * label the activity shows for each anti-tracking category.
 */
module Tracking {

  /**
   * GeckoView's anti-tracking category of a blocked request. The engine
   * reports it as an integer; the six values the activity names get a
   * constructor each, and Other stands for every value that is none of them.
   */
  datatype AntiTracking = None | Analytic | Ad | Test | Social | Content | Other

  /** A blocked request as the engine reports it: its URI and its category. */
  datatype BlockEvent = BlockEvent(uri: string, category: AntiTracking)

  /** Every label the activity can show. */
  const Labels: set<string> := {"none", "ANALYTIC", "ADD", "TEST", "SOCIAL", "CONTENT"}

  predicate IsNamed(c: AntiTracking) {
    !c.Other?
  }

  /**
   * The label shown for an event's category. Total: every category gets
   * one of the six labels, and exactly NONE and the unnamed values read "none".
   */
  function CategoryToString(c: AntiTracking): (name: string)
    ensures name in Labels
    ensures name == "none" <==> c.None? || c.Other?
  {
    match c
    case None => "none"
    case Analytic => "ANALYTIC"
    case Ad => "ADD"
    case Test => "TEST"
    case Social => "SOCIAL"
    case Content => "CONTENT"
    case Other => "none"
  }

  /** The label table, one entry per named category and the default. */
  lemma CategoryLabelTable()
    ensures CategoryToString(None) == "none"
    ensures CategoryToString(Analytic) == "ANALYTIC"
    ensures CategoryToString(Ad) == "ADD"
    ensures CategoryToString(Test) == "TEST"
    ensures CategoryToString(Social) == "SOCIAL"
    ensures CategoryToString(Content) == "CONTENT"
    ensures CategoryToString(Other) == "none"
  {
  }

  /**
   * Apart from "none", a label names exactly one category: two categories
   * with the same label are equal unless both read "none".
   */
  lemma LabelIdentifiesCategory(c: AntiTracking, d: AntiTracking)
    requires CategoryToString(c) == CategoryToString(d)
    ensures c == d || (CategoryToString(c) == "none" && (c.None? || c.Other?) && (d.None? || d.Other?))
  {
  }

  /** Every label is the label of some named category. */
  lemma EveryLabelIsUsed(name: string)
    requires name in Labels
    ensures exists c :: IsNamed(c) && CategoryToString(c) == name
  {
    if name == "none" { assert CategoryToString(None) == name; }
    else if name == "ANALYTIC" { assert CategoryToString(Analytic) == name; }
    else if name == "ADD" { assert CategoryToString(Ad) == name; }
    else if name == "TEST" { assert CategoryToString(Test) == name; }
    else if name == "SOCIAL" { assert CategoryToString(Social) == name; }
    else { assert CategoryToString(Content) == name; }
  }
}
