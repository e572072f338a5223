# Podcast item builder: a Dafny model

This project models the episode record (`Item`) of the `podcast` package of
rss-feed-generator, a Go library that builds podcast RSS feeds. It also proves
properties of that model.

An `Item` holds the RSS 2.0 and iTunes fields of one episode. Each `Add…` setter
checks its argument and then writes one or two fields in place:

- empty strings are ignored;
- non-positive numbers are ignored;
- the episode type must be one of three named values;
- the block flag and the parental advisory are mapped onto fixed strings;
- the summary is cut to 4000 characters before it is converted from HTML to text.

The file also has `parseDuration`, which renders a number of seconds as an
`H:MM:SS` or `M:SS` clock string.

Layout:

- `wrappers.dfy`, module `Wrappers`: `Option`. It stands for a Go pointer that may be nil, and for a reader that may fail.
- `types.dfy`, module `PodcastTypes`: Go's `int64` and the value types an item points to (`GUID`, `Description`, `EncodedContent`, `Enclosure`, `ISummary`, `IImage`). It also holds the `EnclosureType` enumeration and the named episode-type and parental-advisory constants.
- `decimal.dfy`, module `Decimal`: the base-10 rendering of `strconv.FormatInt(n, 10)`, `fmt.Sprint`, `%d` and `%02d`. It includes a reader, and lemmas that every rendering reads back to its number.
- `item_spec.dfy`, module `ItemSpec`: the item's state as a value (`ItemValue`) and one function per setter. Each function's contract states the guard, the new value of the fields the setter writes, and `OnlyChanged`: every other field keeps its value.
- `item.dfy`, module `Podcast`: the class `Item`. Its fields are the Go struct's fields. Each setter is a method with `modifies this`. Its postcondition equates the new state with the matching `ItemSpec` function of the old state.
- `duration.dfy`, module `Duration`: `parseDuration` with Go's truncating `/` and `%`. `ReadClock` is an independent reader of clock strings. The lemmas give the layout, the field widths and the round trip.

## Model

| member | source | states |
|---|---|---|
| `Podcast.Item.constructor` | item.go:29-57 | A new item is the zero `Item`: every string field empty and every pointer field nil. |
| `Podcast.Item.AddGUID` | item.go:59-68 | The new state is `ItemSpec.AddGUID` of the old state. |
| `Podcast.Item.AddTitle` | item.go:70-76 | The new state is `ItemSpec.AddTitle` of the old state. |
| `Podcast.Item.AddLink` | item.go:78-84 | The new state is `ItemSpec.AddLink` of the old state. |
| `Podcast.Item.AddDescription` | item.go:86-95 | The new state is `ItemSpec.AddDescription` of the old state. |
| `Podcast.Item.AddEnclosure` | item.go:97-106 | The new state is `ItemSpec.AddEnclosure` of the old state. |
| `Podcast.Item.AddEpisodeNumber` | item.go:108-114 | The new state is `ItemSpec.AddEpisodeNumber` of the old state. |
| `Podcast.Item.AddEpisodeType` | item.go:116-124 | The new state is `ItemSpec.AddEpisodeType` of the old state. |
| `Podcast.Item.AddImage` | item.go:126-139 | The new state is `ItemSpec.AddImage` of the old state. |
| `Podcast.Item.AddItunesBlock` | item.go:141-147 | The new state is `ItemSpec.AddItunesBlock` of the old state. |
| `Podcast.Item.AddItunesTitle` | item.go:149-155 | The new state is `ItemSpec.AddItunesTitle` of the old state. |
| `Podcast.Item.AddParentalAdvisory` | item.go:157-165 | The new state is `ItemSpec.AddParentalAdvisory` of the old state. |
| `Podcast.Item.AddPubDate` | item.go:167-174 | The new state is `ItemSpec.AddPubDate` of the old state. |
| `Podcast.Item.AddSeasonNumber` | item.go:176-182 | The new state is `ItemSpec.AddSeasonNumber` of the old state. |
| `Podcast.Item.AddSummary` | item.go:184-199 | The new state is `ItemSpec.AddSummary` of the old state; the HTML-to-text converter is a parameter. |
| `Podcast.Item.AddDuration` | item.go:201-207 | The new state is `ItemSpec.AddDuration` of the old state. |
| `ItemSpec.AddGUID` | item.go:59-68 | Empty guid: the item is unchanged. Otherwise the GUID holds the argument with IsPermaLink false. No other field changes. |
| `ItemSpec.AddTitle` | item.go:70-76 | Empty title: the item is unchanged. Otherwise Title is the argument. No other field changes. |
| `ItemSpec.AddLink` | item.go:78-84 | Empty link: the item is unchanged. Otherwise Link is the argument. No other field changes. |
| `ItemSpec.AddDescription` | item.go:86-95 | Empty text: the item is unchanged. Otherwise Description is the argument and EncodedDescription carries the same text. Only those two fields change. |
| `ItemSpec.AddEnclosure` | item.go:97-106 | Always sets Enclosure to the URL, type, type string and length exactly as passed, with no clamping. No other field changes. |
| `ItemSpec.AddEpisodeNumber` | item.go:108-114 | A number at or below zero leaves the item unchanged. A positive one is stored as its canonical decimal, which reads back to the number. No other field changes. |
| `ItemSpec.AddEpisodeType` | item.go:116-124 | EpisodeType takes the argument exactly when it is one of the three episode-type constants. Any other input, including the empty string, leaves the item unchanged. No other field changes. |
| `ItemSpec.AddImage` | item.go:126-139 | Empty URL: the item is unchanged. Otherwise IImage points at the URL. No other field changes. |
| `ItemSpec.AddItunesBlock` | item.go:141-147 | Total. IBlock is "Yes" exactly when the input is "hide", and "No" exactly when it is not. No other field changes. |
| `ItemSpec.AddItunesTitle` | item.go:149-155 | Empty title: the item is unchanged. Otherwise ITitle is the argument. No other field changes. |
| `ItemSpec.AddParentalAdvisory` | item.go:157-165 | The explicit constant gives IExplicit "yes" and the clean constant gives "no". Any other input leaves the item unchanged. No other field changes. |
| `ItemSpec.AddPubDate` | item.go:167-174 | Empty date: the item is unchanged. Otherwise PubDate is the argument. No other field changes. |
| `ItemSpec.AddSeasonNumber` | item.go:176-182 | A number at or below zero leaves the item unchanged. A positive one is stored as its canonical decimal, which reads back to the number. No other field changes. |
| `ItemSpec.SummaryInput` | item.go:191-195 | The text handed to the converter is a prefix of the summary whose length is the smaller of 4000 and the summary's length. |
| `ItemSpec.ShortSummaryKept` | item.go:191-195 | A summary of at most 4000 characters is passed on whole. |
| `ItemSpec.AddSummary` | item.go:190-199 | ISummary is always set, to the converter's output on the capped summary. No other field changes. |
| `ItemSpec.AddDuration` | item.go:201-207 | A value at or below zero leaves the item unchanged. A positive one is stored as its plain decimal (not a clock string), which reads back to the number. No other field changes. |
| `ItemSpec.EraseKeeps` | item.go:29-57 | Resetting one field of an item leaves every other field as it was. |
| `ItemSpec.EraseAllKeeps` | item.go:29-57 | Resetting a list of fields leaves every field outside the list as it was. |
| `ItemSpec.OnlyChangedKeeps` | item.go:29-57 | The frame used by every setter contract is sound: two items related by `OnlyChanged(a, b, fs)` agree on every field outside fs. |
| `ItemSpec.AddItunesBlockIdempotent` | item.go:141-147 | Setting the block flag twice with the same input equals setting it once. |
| `ItemSpec.AddItunesBlockLastWins` | item.go:141-147 | The block flag depends only on the last input; an earlier call leaves no trace. |
| `ItemSpec.NumberExample` | examples_test.go:222-235 | 533 is stored as "533" by the duration, episode-number and season-number setters. |
| `ItemSpec.EnclosureNegativeLengthKept` | item.go:98-106 | A length of -1 is stored as -1; the setter does not clamp. |
| `PodcastTypes.IsEpisodeType` | item.go:119 | The condition AddEpisodeType checks: the input is one of the three episode-type constants. Any input it accepts is non-empty. |
| `PodcastTypes.ConstantsDistinct` | item.go:116-165 | The episode-type constants are pairwise distinct, the two advisory constants differ, and none is empty. |
| `Decimal.NatToString` | item.go:108-114 | The decimal of a natural number is non-empty and all digits. It has one digit exactly below ten, and no leading zero otherwise. |
| `Decimal.FormatInt` | item.go:108-114 | strconv.FormatInt(n, 10): the canonical digits of n, preceded by a minus sign when n is negative. |
| `Decimal.ValueOfNatToString` | item.go:108-114 | The digits of n denote n. |
| `Decimal.FormatIntRoundTrip` | item.go:108-114 | Reading FormatInt(n) back gives n, for every integer n. |
| `Decimal.FormatIntInjective` | item.go:108-114 | Distinct numbers are rendered differently. |
| `Decimal.Pad2` | item.go:218-234 | "%02d" is at least two characters wide. It is exactly two digits for 0..99, and equals the plain decimal from ten upward. |
| `Decimal.Pad2RoundTrip` | item.go:218-234 | A "%02d" field of a number below one hundred is two digits that read back to the number. |
| `Duration.Quot` | item.go:210-213 | Go's `/` for a positive divisor truncates toward zero. The remainder is in [0, b) for a non-negative dividend and in (-b, 0] for a negative one. |
| `Duration.Rem` | item.go:211-214 | Go's `%`: dividend = divisor × quotient + remainder, and the remainder takes the dividend's sign. |
| `Duration.Hours` | item.go:210 | h is the duration's whole hours, truncated toward zero: 3600·h ≤ d < 3600·(h+1) for d ≥ 0, and 3600·(h−1) < d ≤ 3600·h below zero. |
| `Duration.Minutes` | item.go:211-213 | m is the whole minutes past the hour: in [0, 60) for d ≥ 0 and in (−60, 0] below zero. |
| `Duration.Seconds` | item.go:214-216 | s is the seconds past the minute: in [0, 60) for d ≥ 0 and in (−60, 0] below zero. For every d, negative ones included, 3600·h + 60·m + s = d. |
| `Duration.ParseDuration` | item.go:209-235 | The clock string is at least four characters and contains a colon. For d ≥ 0 it ends in a colon and two digits (the seconds field). The layout, field widths and read-back are stated by the lemmas below. |
| `Duration.ClockFields` | item.go:209-216 | For d ≥ 0: h = d/3600, m = (d%3600)/60 and s = d%60, with m < 60, s < 60 and h·3600 + m·60 + s = d. |
| `Duration.LayoutOfNonNegative` | item.go:218-234 | For d ≥ 0 the four layouts reduce to two. The leading field is the plain decimal of the hours (or of the minutes, below an hour), whichever of `%d` or `%02d` printed it. Every later field is `%02d`. |
| `Duration.DurationShape` | item.go:218-234 | For d ≥ 0 the string has three colon-separated fields exactly when d ≥ 3600, and two otherwise. The leading field is the canonical decimal of the hours or minutes. Every later field is exactly two digits. |
| `Duration.DurationRoundTrip` | item.go:209-235 | For d ≥ 0, reading the clock string back gives d. |
| `Duration.ParseDurationInjective` | item.go:209-235 | Distinct non-negative durations give distinct clock strings. |
| `Duration.DurationExampleMinutes` | item.go:233-234 | 533 seconds is "8:53" (M:SS). |
| `Duration.DurationExampleTenMinutes` | item.go:228-231 | 600 seconds is "10:00" (MM:SS). |
| `Duration.DurationExampleHours` | item.go:223-226 | 3725 seconds is "1:02:05" (H:MM:SS). |
| `Duration.DurationExampleTenHours` | item.go:218-221 | 36000 seconds is "10:00:00" (HH:MM:SS). |
| `Duration.NegativeDurationSigned` | item.go:209-235 | Negative input, as written: the fields truncate toward zero and keep their sign, so -65 gives "-1:-5". |
| `Duration.NegativeDurationLosesHour` | item.go:209-235 | Negative input, as written: -3600 gives "0:00", which drops the hour. |

## Left out

- XML struct tags, the `XMLName` field and `encoding/xml` marshalling (item.go:29-57): these are serialisation only. `ItemValue` and the class keep the remaining 24 fields.
- `html2text.HTML2Text` (item.go:197): it belongs to another package, so it is the `html2text` parameter of `AddSummary`. It is treated as an arbitrary total function on strings.
- The declarations of `GUID`, `Description`, `EncodedContent`, `Enclosure`, `ISummary`, `IImage`, `EnclosureType` and the named constants are not part of this model. Each value type has only the fields item.go reads or writes. The constants' spellings follow Apple's documented values ("full", "trailer", "bonus", "explicit", "clean"). No contract depends on a spelling. The contracts use only the constants' names, their pairwise distinctness, and the fact that none is empty. `ItemSpec.AddEpisodeType` relies on that last fact: the setter returns early on the empty string, so "no change unless the input is one of the constants" needs every constant to be non-empty. `PodcastTypes.ConstantsDistinct` proves all three facts for the chosen spellings.
- Bytes versus runes: the source tests emptiness with byte length, which is equivalent to testing for the empty string. It counts and slices the summary in runes. Strings here are sequences of Unicode scalar values (`seq<char>`), so a rune is a `char`. Go's replacement of invalid UTF-8 bytes by U+FFFD when converting to `[]rune` is not modelled.
- Aliasing: the pointer fields (`GUID`, `Description`, `EncodedDescription`, `Enclosure`, `ISummary`, `IImage`) are modelled as values. This is sound for the setters for one reason: no setter writes through a pointer. Each setter only replaces a pointer with one to a fresh struct, or to `AddDescription`'s own copy of its argument. Go copies an `Item` by value, for example when it is passed to the Podcast-level `AddItem`, and the copy shares every pointee with the original. A write through a shared pointer by code outside item.go would then be visible in both copies. Value copies of an `Item` that share pointees are not modelled.
- `parseDuration` is a package-level variable holding a function literal, and nothing in item.go calls it. `AddDuration` uses `fmt.Sprint`. The model keeps both as they are written.
- The Podcast-level builder (`AddItem`, its validation, defaulting and clamping of negative enclosure lengths), `Podcast.Encode`, and the feed parser under `parser/`: their sources are not part of this model.
