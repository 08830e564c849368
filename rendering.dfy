/**
 * The list the blocked-trackers dialog shows: one entry per blocked event,
 * built from the event's category label and the host of its URI.
 */
module Rendering {
  import Wrappers
  import opened Tracking

  /**
   * One dialog entry: the category label and the host. The host is whatever
   * Android's URI parser returns for the event's URI, possibly nothing.
   */
  datatype TrackerEntry = TrackerEntry(category: string, host: Wrappers.Option<string>)

  /** The entry for one event; `host` stands for Android's `toUri().host`. */
  function FriendlyEntry(e: BlockEvent, host: string -> Wrappers.Option<string>): (entry: TrackerEntry)
    ensures entry.category in Labels
  {
    TrackerEntry(CategoryToString(e.category), host(e.uri))
  }

  /** The entries for a list of events, in the list's order. */
  function FriendlyTrackersUrls(events: seq<BlockEvent>, host: string -> Wrappers.Option<string>): (entries: seq<TrackerEntry>)
    ensures |entries| == |events|
  {
    if events == [] then []
    else [FriendlyEntry(events[0], host)] + FriendlyTrackersUrls(events[1..], host)
  }

  /** Entry i is built from event i: the rendering keeps order and length. */
  lemma {:induction false} FriendlyTrackersUrlsAt(events: seq<BlockEvent>, host: string -> Wrappers.Option<string>, i: nat)
    requires i < |events|
    ensures FriendlyTrackersUrls(events, host)[i] == FriendlyEntry(events[i], host)
  {
    if i > 0 {
      FriendlyTrackersUrlsAt(events[1..], host, i - 1);
    }
  }

  /** Rendering a list with one more event at the end adds that event's entry at the end. */
  lemma {:induction false} FriendlyTrackersUrlsAppend(events: seq<BlockEvent>, e: BlockEvent, host: string -> Wrappers.Option<string>)
    ensures FriendlyTrackersUrls(events + [e], host) == FriendlyTrackersUrls(events, host) + [FriendlyEntry(e, host)]
  {
    if events == [] {
      assert events + [e] == [e];
    } else {
      assert (events + [e])[1..] == events[1..] + [e];
      FriendlyTrackersUrlsAppend(events[1..], e, host);
    }
  }
}
