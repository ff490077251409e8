# VibeNet badge and feed rules, modelled in Dafny

VibeNet is a Streamlit social app. Vibers post emotion-tagged thoughts, echo (react to) them, join tribes and
earn badges. Nearly all of the app passes calls straight through to a hosted database. This project models the
small set of rules in `app16.py` that do have behaviour:

- **Badge award** (`award_badge`), module `Badges`. This is a read-check-write over a badge catalog and a table
  of vibers, where each viber has an ordered badge list. `Badges.Award` is the pure specification: it returns
  the result together with the table the call leaves behind. The class `Badges.ViberStore` holds the catalog
  and the table as fields. Its method `AwardBadge` updates the table in place and is proved equal to `Award`.
  Failures are an `Err` result: an unknown badge, or a viber with no record.
- **Trigger table**, module `Triggers`. Reacting with Joy, Curiosity or Nostalgia unlocks "Joyful Viber",
  "Curious Mind" or "Nostalgic Soul". Publishing a post unlocks "Explorer". Joining a tribe unlocks
  "Tribe Member". The module also holds the notification texts.
- **Notification feed**, module `Feed`. Every message is inserted at index 0, so the feed reads newest first.
- **Call sites**, module `Session`. The class `UserSession` holds the session's feed and its cached badge list.
  It has one method for each place that awards a badge: after an echo, after a post and after a tribe join.
- **Trending**, module `Trending`. Thoughts are sorted by echo count, highest first, with a stable sort. A missing
  count reads as 0. The list is then cut to three.
- **`timeago`**, module `TimeAgo`. An already computed time difference (days, seconds) becomes "Nd ago",
  "Nh ago", "Nm ago" or "just now". The thresholds are strict.

Three behaviours of the code that the model keeps:

- `sorted(..., reverse=True)` is stable, so thoughts with equal echo counts keep their input order.
- After an echo, an echo notification is pushed as well as the badge notification.
- After a tribe join, the award result is ignored. No badge notification is pushed and the cached badges are
  not refreshed.

## Model

| member | source | states |
|---|---|---|
| `Badges.Award` | app16.py:132-156 | Raises "badge not found" when the name is not in the catalog. This check comes before the viber check. Raises "user not found" when the viber has no record. Returns false and writes nothing when the viber already owns the badge. Otherwise returns true, and the viber owns the badge afterwards. Only that viber's badge list changes, by appending exactly that name: the old list stays as a prefix and the length grows by one. |
| `Badges.ViberStore.AwardBadge` | app16.py:132-156 | The in-place read-check-write returns the same result as `Award` and leaves the same table. On true the table is the old one with the list extended; otherwise the table is unchanged. |
| `Badges.AwardTwice` | app16.py:149-156 | Two calls in a row with a badge the viber lacks return true, then false. The second call writes nothing, and the badge appears exactly once. |
| `Badges.AwardIdempotent` | app16.py:149-151 | After any successful call, a repeat call returns false and leaves the table as it is. |
| `Badges.AwardInOrder` | app16.py:153-156 | Awarding two new badges B1 then B2 leaves the list as old ++ [B1, B2], in award order. |
| `Badges.AwardKeepsWellFormed` | app16.py:139-156 | Every call keeps the store invariant: each awarded name is a catalog badge and no viber holds a badge twice. |
| `Triggers.BadgeForEmotion` | app16.py:275-296 | An emotion has a badge exactly when it is one of the three echo buttons. Rage, Neutral and any other emotion have none. No reaction badge is "Explorer" or "Tribe Member". |
| `Triggers.BadgeForEmotionInjective` | app16.py:290-294 | Joy, Curiosity and Nostalgia unlock three different badges. |
| `Feed.PushAllIsReverse` | app16.py:303-309 | Inserting messages one by one at index 0 gives the messages in reverse order, in front of the old feed. |
| `Feed.NewestFirst` | app16.py:303-309 | After the inserts, the last message is at index 0 and every message comes before each older one. The earlier feed follows unchanged and the length grows by the number of messages. |
| `Session.UserSession.Notify` | app16.py:303 | A message is inserted at the head of the feed. |
| `Session.UserSession.OnEchoRecorded` | app16.py:287-312 | The award is attempted only when the emotion has a badge, the viber exists and lacks the badge; a missing viber record makes the award raise, which is swallowed. When the award returns true, the cached badges are refreshed from the store and the unlock notice is pushed. The echo notice is always pushed last, so it ends up first. Its name is the viber's or "You". The store invariant is kept. |
| `Session.UserSession.OnPostPublished` | app16.py:366-394 | A missing viber changes nothing. "Explorer" is awarded only when the viber does not own it yet. On an award the cache is refreshed and the unlock notice is pushed. When the badge is already owned, the cache is re-synced and nothing else changes. The store invariant is kept. |
| `Session.UserSession.OnTribeJoined` | app16.py:450-456 | The join notice is pushed first. Then "Tribe Member" is awarded, with any failure or result ignored. The cache is not touched. The store invariant is kept. |
| `Trending.SortByEchoes` | app16.py:492 | The output is a permutation of the input and is non-increasing in echo count, with a missing count read as 0. |
| `Trending.SortIsStable` | app16.py:492 | For every echo count, the thoughts with that count come out in their input order. |
| `Trending.Trending` | app16.py:487-492 | The length is min(3, number of thoughts). Every thought shown comes from the input, and the list is non-increasing in echo count. |
| `Trending.TrendingKeepsTieOrder` | app16.py:492 | For every count, the thoughts shown with that count are a prefix of the input's thoughts with that count. |
| `Trending.TrendingIsTop` | app16.py:492 | No thought left out has more echoes than any thought shown. |
| `Trending.TrendingTieExample` | app16.py:492 | With counts 5, 9, 2, 9 the page shows the two nines in input order, then the five. |
| `TimeAgo.Bucket` | app16.py:104-110 | Days are shown exactly when days > 0. Otherwise hours are shown exactly when seconds > 3600, as the whole number of hours (1 to 23). Otherwise minutes are shown exactly when seconds > 60, as the whole number of minutes (1 to 60). Anything else is "just now". |
| `TimeAgo.NatToString` | app16.py:105-109 | The number is rendered as at least one decimal digit, with no leading zero. |
| `TimeAgo.DecimalRoundTrip` | app16.py:105-109 | The digits written for a count read back as that count. |
| `TimeAgo.TextRoundTrip` | app16.py:104-110 | Every label's text reads back as that label, so different labels never show the same text. |
| `TimeAgo.TimeAgo` | app16.py:98-112 | Returns "" exactly for a missing or empty timestamp. Returns the timestamp itself when parsing fails. Otherwise returns exactly the text of the bucket of the elapsed time, and that text reads back as the bucket. |
| `TimeAgo.OneHourExample` | app16.py:106-109 | Exactly 3600 seconds reads "60m ago". |
| `TimeAgo.OneMinuteExample` | app16.py:108-110 | Exactly 60 seconds reads "just now", and 61 seconds reads "1m ago". |
| `TimeAgo.FutureTimestampExample` | app16.py:103-107 | A timestamp up to a day in the future has days = -1. It is bucketed by its seconds field alone, so 86399 seconds reads as 23 hours. |

## Left out

- Page rendering, CSS, widgets, `st.rerun` and the session-state bootstrapping in `app16.py` are left out. So is
  all of `app.py`. They are user-interface plumbing.
- Sign-in and registration are left out, including the plaintext password comparison. So are the aura change,
  thought and tribe creation, and the error banners shown with `st.error`, including the text of the two award
  errors.
- The data-access and service layers (`src/dao`, `src/services`) and `src/config.py` are left out. Each is a
  single call into the hosted database client. The store is modelled abstractly by `Badges.ViberStore`.
- The badge catalog is modelled as its set of names. Descriptions, aura colours and required levels play no part
  in awarding.
- A viber's missing or null badge list is represented as the empty list. The code reads both as `[]`.
- Recording the echo itself (`EchoService.react`) and duplicate-echo detection are left out. That detection
  depends on the database's "duplicate key" error text. `OnEchoRecorded` models what happens after the echo was
  recorded.
- The "signed in" check before an echo or a join is left out.
- Post creation is left out. `OnPostPublished` models what happens after `PostService.create` succeeded. The
  username lookup is represented by the viber id it resolves to.
- A failure of the database update inside `award_badge` is not modelled.
- A thought whose `echo_count` key is present but null is not modelled: `Thought.echoCount` is None only when the
  key is absent. For a null count, the sort at app16.py:492 compares None with an int and raises a `TypeError`
  that nothing catches.
- Trending takes the sampled thoughts as its input. The sample itself is `list_recent(3)`, a database query.
- ISO-8601 parsing and the clock inside `timeago` are parameters: `parsed` is None when parsing raises. The
  microseconds of the time difference play no part in the buckets.
- The read-then-write race between sessions awarding the same badge is not modelled. The model is sequential.
