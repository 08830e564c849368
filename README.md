# GeckLockView main activity: commit rule and blocked-tracker ledger

GeckLockView is a one-screen Android demo that embeds a GeckoView browser
engine, binds an address bar to it and counts the requests the engine's
content blocking reports as blocked. The engine does every part of the
browsing and of the tracker classification. The activity itself makes three
decisions, and this project models them:

- **Address-bar commit** (`Commit`). If the typed text contains a `.` or a
  `:` and no space, it is loaded as it is. Any other text, the empty string
  included, is loaded as `https://duckduckgo.com/?q=` followed by the text,
  with no encoding. On either branch the commit then resets the ledger.
- **Blocked-tracker ledger** (`Activity.MainActivity`). The class holds the
  list of blocked events since the last commit, the text of the counter
  label, and the last URI the session was asked to load. A block event adds
  the event at the end of the list, duplicates included, and redraws the
  counter as the new length in decimal (`Decimal`). A reset empties the list
  and sets the counter to `"0"`.
- **Category labels and the dialog list** (`Tracking`, `Rendering`). Each
  anti-tracking category maps to a fixed label, with `"none"` for anything the
  activity does not name. Note that the advertising category reads `"ADD"`.
  The dialog list is built from the blocked list one entry per event, in
  order. Each entry is the event's label plus the host of its URI.

Classification happens inside GeckoView, and the list keeps every event,
duplicates included.

Modules: `Wrappers` (the optional value), `Decimal`, `Tracking`, `Commit`,
`Rendering`, `Activity`, one file each.

## Model

| member | source | states |
|---|---|---|
| `Commit.CommitTarget` | app/src/main/java/com/thirdparty/webviewdemo/MainActivity.kt:102-109 | the loaded URI equals the typed text exactly when the text contains `.` or `:` and no space; otherwise it is the search base followed by the text |
| `Commit.SearchQueryRoundTrip` | app/src/main/java/com/thirdparty/webviewdemo/MainActivity.kt:107-108 | text not taken for an address is recovered whole from the search URI (the prefix is exactly `SEARCH_URI_BASE`, and nothing is dropped or encoded) |
| `Commit.SearchQuery` | app/src/main/java/com/thirdparty/webviewdemo/MainActivity.kt:39 | a URI whose query it returns is the search base followed by that query |
| `Commit.RecommitIsStableIffNoSpace` | app/src/main/java/com/thirdparty/webviewdemo/MainActivity.kt:103-108 | committing the loaded URI again loads the same URI if and only if the typed text had no space |
| `Commit.InitialUrlLoadsVerbatim` | app/src/main/java/com/thirdparty/webviewdemo/MainActivity.kt:38 | the initial address, which is also the bar's initial text, is taken for an address and loaded unchanged |
| `Activity.MainActivity.OnCommit` | app/src/main/java/com/thirdparty/webviewdemo/MainActivity.kt:102-112 | the requested URI becomes the commit target of the text, and afterwards the list is empty and the counter reads `"0"` on both branches |
| `Activity.MainActivity.constructor` | app/src/main/java/com/thirdparty/webviewdemo/MainActivity.kt:59-79 | the session starts by loading the initial address, with an empty list and the counter text the layout supplies |
| `Activity.MainActivity.OnContentBlocked` | app/src/main/java/com/thirdparty/webviewdemo/MainActivity.kt:121-124 | the new list is the old list with the event at the end (earlier events unchanged and in order, length plus one, duplicates kept); the counter shows the new length in decimal, and reading it back gives the old length plus one; the requested URI is unchanged |
| `Activity.MainActivity.ClearTrackersCount` | app/src/main/java/com/thirdparty/webviewdemo/MainActivity.kt:172-175 | the list becomes empty and the counter `"0"` (the decimal text of length zero, by `Decimal.NatToDecimal`); the requested URI is unchanged |
| `Activity.MainActivity.GetFriendlyTrackersUrls` | app/src/main/java/com/thirdparty/webviewdemo/MainActivity.kt:141-150 | one entry per blocked event; entry i is built from event i's label and host |
| `Decimal.NatToDecimal` | app/src/main/java/com/thirdparty/webviewdemo/MainActivity.kt:123 | the counter text of a count is a non-empty run of digits with no leading zero, `"0"` exactly for zero, one digit exactly below ten |
| `Decimal.DecimalRoundTrip` | app/src/main/java/com/thirdparty/webviewdemo/MainActivity.kt:123 | reading the counter text back as a decimal number gives the count that was rendered |
| `Decimal.NatToDecimalInjective` | app/src/main/java/com/thirdparty/webviewdemo/MainActivity.kt:123 | different counts never show the same counter text |
| `Tracking.CategoryToString` | app/src/main/java/com/thirdparty/webviewdemo/MainActivity.kt:128-139 | every category gets one of the six labels (total mapping), and the label is `"none"` exactly for NONE and for values the activity does not name |
| `Tracking.CategoryLabelTable` | app/src/main/java/com/thirdparty/webviewdemo/MainActivity.kt:129-137 | NONE→`"none"`, ANALYTIC→`"ANALYTIC"`, AD→`"ADD"`, TEST→`"TEST"`, SOCIAL→`"SOCIAL"`, CONTENT→`"CONTENT"`, any other value→`"none"` |
| `Tracking.LabelIdentifiesCategory` | app/src/main/java/com/thirdparty/webviewdemo/MainActivity.kt:129-137 | two categories with the same label are the same category, unless the label is `"none"` |
| `Tracking.EveryLabelIsUsed` | app/src/main/java/com/thirdparty/webviewdemo/MainActivity.kt:129-136 | each of the six labels is the label of a named category |
| `Rendering.FriendlyEntry` | app/src/main/java/com/thirdparty/webviewdemo/MainActivity.kt:142-146 | an entry's category text is always one of the six labels |
| `Rendering.FriendlyTrackersUrls` | app/src/main/java/com/thirdparty/webviewdemo/MainActivity.kt:141-149 | the rendered list has as many entries as there are events |
| `Rendering.FriendlyTrackersUrlsAt` | app/src/main/java/com/thirdparty/webviewdemo/MainActivity.kt:141-149 | entry i is the entry of event i: order is preserved |
| `Rendering.FriendlyTrackersUrlsAppend` | app/src/main/java/com/thirdparty/webviewdemo/MainActivity.kt:141-149 | rendering the list after a block event gives the old rendering with the new event's entry appended at the end |

## Left out

- Engine lifecycle: `GeckoRuntime.create`, `session.open`, `session.close` and `shutdown` are calls into GeckoView. `loadUri` is modelled only as the field `requestedUri`, which holds the last URI requested. Navigation itself is not modelled.
- Tracker detection and classification: GeckoView decides what is blocked and reports it. The model takes each `BlockEvent` as given.
- The numeric values of GeckoView's `AntiTracking` constants are defined in GeckoView, which is not part of this model. Categories are a datatype: one constructor per named constant, plus `Other` for every other value.
- Host extraction (`toUri().host`, an Android call that may return null) is a parameter `host` of the rendering functions, with `None` for a null host.
- `Html.fromHtml` and the `<b><font …>` markup: an entry is modelled as the pair of label and host, and the markup text itself is not modelled.
- The counter's text before the first event or commit comes from the layout resource, which is not part of this model. It is a constructor parameter, so the counter is proved to match the list only after the first `OnContentBlocked`, `ClearTrackersCount` or `OnCommit`.
- `Decimal.NatToDecimal`: the list size is a 32-bit Kotlin `Int`. The model uses unbounded naturals, because a list can never grow past that range in practice.
- UI wiring: the toolbar, the editor-action listener, `geckoView.requestFocus()`, the `AlertDialog` and `SpannedArrayAdapter`, and the counter's click listeners: the first tap on the counter only installs the dialog listener (lines 74 and 153 of `MainActivity.kt`), and later taps open the dialog. The guard that the list is non-empty only decides whether a dialog is shown.
- Threading and callback timing: engine callbacks are modelled as sequential method calls on the activity.
