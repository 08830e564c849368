/**
 * The state the activity keeps between engine callbacks: the list of
 * blocked events since the last commit, the text of the counter label,
 * and the last URI the session was asked to load.
 */
module Activity {
  import Wrappers
  import opened Decimal
  import opened Tracking
  import opened Commit
  import opened Rendering

  class MainActivity {
    /** The events blocked since the last commit, oldest first. */
    var trackersBlockedList: seq<BlockEvent>
    /** The text of the counter label. */
    var trackersCountText: string
    /** The URI most recently passed to the session's `loadUri`. */
    var requestedUri: string

    /** The counter label shows the number of blocked events in decimal. */
    predicate CounterShowsCount()
      reads this
    {
      trackersCountText == NatToDecimal(|trackersBlockedList|)
    }

    /**
     * Set-up of the view: the session loads the initial page and the list
     * starts empty. The counter keeps the text the layout gives it,
     * `layoutCounterText`, until the first event or commit.
     */
    constructor (layoutCounterText: string)
      ensures trackersBlockedList == []
      ensures trackersCountText == layoutCounterText
      ensures requestedUri == InitialUrl
    {
      trackersBlockedList := [];
      trackersCountText := layoutCounterText;
      requestedUri := InitialUrl;
    }

    /**
     * The content-blocking callback: the event goes at the end of the list,
     * duplicates included, and the counter is redrawn from the new length.
     */
    method OnContentBlocked(event: BlockEvent)
      modifies this
      ensures trackersBlockedList == old(trackersBlockedList) + [event]
      ensures requestedUri == old(requestedUri)
      ensures CounterShowsCount()
      ensures IsDecimal(trackersCountText) && DecimalValue(trackersCountText) == |old(trackersBlockedList)| + 1
    {
      trackersBlockedList := trackersBlockedList + [event];
      trackersCountText := NatToDecimal(|trackersBlockedList|);
      DecimalRoundTrip(|trackersBlockedList|);
    }

    /** Empties the list and resets the counter to "0". */
    method ClearTrackersCount()
      modifies this
      ensures trackersBlockedList == []
      ensures trackersCountText == "0"
      ensures requestedUri == old(requestedUri)
    {
      trackersBlockedList := [];
      trackersCountText := "0";
    }

    /**
     * A commit from the address bar: the text is loaded as an address or as
     * a DuckDuckGo search, and the ledger is reset on either branch.
     */
    method OnCommit(text: string)
      modifies this
      ensures requestedUri == CommitTarget(text)
      ensures trackersBlockedList == []
      ensures trackersCountText == "0"
    {
      if ('.' in text || ':' in text) && ' ' !in text {
        requestedUri := text;
      } else {
        requestedUri := SearchUriBase + text;
      }
      ClearTrackersCount();
    }

    /** The dialog's entries, one per blocked event and in the list's order. */
    function GetFriendlyTrackersUrls(host: string -> Wrappers.Option<string>): (entries: seq<TrackerEntry>)
      reads this
      ensures |entries| == |trackersBlockedList|
      ensures forall i | 0 <= i < |entries| :: entries[i] == FriendlyEntry(trackersBlockedList[i], host)
    {
      var entries := FriendlyTrackersUrls(trackersBlockedList, host);
      assert forall i | 0 <= i < |entries| :: entries[i] == FriendlyEntry(trackersBlockedList[i], host) by {
        forall i | 0 <= i < |entries| ensures entries[i] == FriendlyEntry(trackersBlockedList[i], host) {
          FriendlyTrackersUrlsAt(trackersBlockedList, host, i);
        }
      }
      entries
    }
  }
}
