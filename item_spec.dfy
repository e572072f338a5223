/**
 * The state of a podcast episode (Item) as a value, and the effect of each of
 * its setters on that value. Every setter's contract gives the guard, the new
 * value of the field(s) it writes, and that every other field keeps its value.
 */
module ItemSpec {
  import opened Wrappers
  import opened PodcastTypes
  import opened Decimal

  /** iTunes accepts at most this many characters of summary. */
  const MaxSummaryRunes: nat := 4000

  /** The fields of an Item; a nil pointer field is None. */
  datatype ItemValue = ItemValue(
    GUID: Option<GUID>,
    Title: string,
    Link: string,
    Description: Option<Description>,
    EncodedDescription: Option<EncodedContent>,
    AuthorFormatted: string,
    Category: string,
    Comments: string,
    Source: string,
    PubDate: string,
    Enclosure: Option<Enclosure>,
    IAuthor: string,
    ITitle: string,
    SeasonNumber: string,
    EpisodeNumber: string,
    EpisodeType: string,
    ISubtitle: string,
    ISummary: Option<ISummary>,
    IImage: Option<IImage>,
    IBlock: string,
    IDuration: string,
    IExplicit: string,
    IIsClosedCaptioned: string,
    IOrder: string)

  /** The zero Item: every string empty, every pointer nil. */
  const Zero := ItemValue(None, "", "", None, None, "", "", "", "", "", None,
                          "", "", "", "", "", "", None, None, "", "", "", "", "")

  /** Names of the fields, so that a contract can say which ones a setter may change. */
  datatype Field =
    | GUIDField | TitleField | LinkField | DescriptionField | EncodedDescriptionField
    | AuthorFormattedField | CategoryField | CommentsField | SourceField | PubDateField
    | EnclosureField | IAuthorField | ITitleField | SeasonNumberField | EpisodeNumberField
    | EpisodeTypeField | ISubtitleField | ISummaryField | IImageField | IBlockField
    | IDurationField | IExplicitField | IIsClosedCaptionedField | IOrderField

  /** v with field f reset to its zero value. */
  function Erase(v: ItemValue, f: Field): ItemValue {
    match f
    case GUIDField => v.(GUID := None)
    case TitleField => v.(Title := "")
    case LinkField => v.(Link := "")
    case DescriptionField => v.(Description := None)
    case EncodedDescriptionField => v.(EncodedDescription := None)
    case AuthorFormattedField => v.(AuthorFormatted := "")
    case CategoryField => v.(Category := "")
    case CommentsField => v.(Comments := "")
    case SourceField => v.(Source := "")
    case PubDateField => v.(PubDate := "")
    case EnclosureField => v.(Enclosure := None)
    case IAuthorField => v.(IAuthor := "")
    case ITitleField => v.(ITitle := "")
    case SeasonNumberField => v.(SeasonNumber := "")
    case EpisodeNumberField => v.(EpisodeNumber := "")
    case EpisodeTypeField => v.(EpisodeType := "")
    case ISubtitleField => v.(ISubtitle := "")
    case ISummaryField => v.(ISummary := None)
    case IImageField => v.(IImage := None)
    case IBlockField => v.(IBlock := "")
    case IDurationField => v.(IDuration := "")
    case IExplicitField => v.(IExplicit := "")
    case IIsClosedCaptionedField => v.(IIsClosedCaptioned := "")
    case IOrderField => v.(IOrder := "")
  }

  /** v with every field listed in fs reset to its zero value. */
  function EraseAll(v: ItemValue, fs: seq<Field>): ItemValue
    decreases |fs|
  {
    if fs == [] then v else EraseAll(Erase(v, fs[0]), fs[1..])
  }

  /** Going from a to b changes no field outside fs: the two agree once fs is erased. */
  predicate OnlyChanged(a: ItemValue, b: ItemValue, fs: seq<Field>) {
    EraseAll(a, fs) == EraseAll(b, fs)
  }

  /** a and b hold the same value in field f. */
  predicate Agree(a: ItemValue, b: ItemValue, f: Field) {
    match f
    case GUIDField => a.GUID == b.GUID
    case TitleField => a.Title == b.Title
    case LinkField => a.Link == b.Link
    case DescriptionField => a.Description == b.Description
    case EncodedDescriptionField => a.EncodedDescription == b.EncodedDescription
    case AuthorFormattedField => a.AuthorFormatted == b.AuthorFormatted
    case CategoryField => a.Category == b.Category
    case CommentsField => a.Comments == b.Comments
    case SourceField => a.Source == b.Source
    case PubDateField => a.PubDate == b.PubDate
    case EnclosureField => a.Enclosure == b.Enclosure
    case IAuthorField => a.IAuthor == b.IAuthor
    case ITitleField => a.ITitle == b.ITitle
    case SeasonNumberField => a.SeasonNumber == b.SeasonNumber
    case EpisodeNumberField => a.EpisodeNumber == b.EpisodeNumber
    case EpisodeTypeField => a.EpisodeType == b.EpisodeType
    case ISubtitleField => a.ISubtitle == b.ISubtitle
    case ISummaryField => a.ISummary == b.ISummary
    case IImageField => a.IImage == b.IImage
    case IBlockField => a.IBlock == b.IBlock
    case IDurationField => a.IDuration == b.IDuration
    case IExplicitField => a.IExplicit == b.IExplicit
    case IIsClosedCaptionedField => a.IIsClosedCaptioned == b.IIsClosedCaptioned
    case IOrderField => a.IOrder == b.IOrder
  }

  /** Erasing one field leaves every other field as it was. */
  lemma EraseKeeps(v: ItemValue, g: Field, f: Field)
    requires f != g
    ensures Agree(Erase(v, g), v, f)
  {
  }

  /** Erasing a list of fields leaves every field outside the list as it was. */
  lemma {:induction false} EraseAllKeeps(v: ItemValue, fs: seq<Field>, f: Field)
    requires f !in fs
    ensures Agree(EraseAll(v, fs), v, f)
    decreases |fs|
  {
    if fs != [] {
      EraseKeeps(v, fs[0], f);
      EraseAllKeeps(Erase(v, fs[0]), fs[1..], f);
    }
  }

  /** OnlyChanged(a, b, fs) means what it says: every field outside fs has the same value in a and b. */
  lemma OnlyChangedKeeps(a: ItemValue, b: ItemValue, fs: seq<Field>, f: Field)
    requires OnlyChanged(a, b, fs) && f !in fs
    ensures Agree(a, b, f)
  {
    EraseAllKeeps(a, fs, f);
    EraseAllKeeps(b, fs, f);
  }

  function AddGUID(v: ItemValue, guid: string): (r: ItemValue)
    ensures guid == [] ==> r == v
    ensures guid != [] ==> r.GUID.Some? && r.GUID.value.Value == guid && !r.GUID.value.IsPermaLink
    ensures OnlyChanged(v, r, [GUIDField])
  {
    if |guid| <= 0 then v else v.(GUID := Some(GUID(Value := guid, IsPermaLink := false)))
  }

  function AddTitle(v: ItemValue, title: string): (r: ItemValue)
    ensures title == [] ==> r == v
    ensures title != [] ==> r.Title == title
    ensures OnlyChanged(v, r, [TitleField])
  {
    if |title| <= 0 then v else v.(Title := title)
  }

  function AddLink(v: ItemValue, link: string): (r: ItemValue)
    ensures link == [] ==> r == v
    ensures link != [] ==> r.Link == link
    ensures OnlyChanged(v, r, [LinkField])
  {
    if |link| <= 0 then v else v.(Link := link)
  }

  function AddDescription(v: ItemValue, description: Description): (r: ItemValue)
    ensures description.Text == [] ==> r == v
    ensures description.Text != [] ==>
      r.Description == Some(description) &&
      r.EncodedDescription.Some? && r.EncodedDescription.value.Text == description.Text
    ensures OnlyChanged(v, r, [DescriptionField, EncodedDescriptionField])
  {
    if |description.Text| <= 0 then v
    else v.(Description := Some(description),
            EncodedDescription := Some(EncodedContent(Text := description.Text)))
  }

  function AddEnclosure(v: ItemValue, url: string, enclosureType: EnclosureType,
                        enclosureTypeString: string, lengthInBytes: int64): (r: ItemValue)
    ensures r.Enclosure.Some?
    ensures r.Enclosure.value.URL == url && r.Enclosure.value.Type == enclosureType
    ensures r.Enclosure.value.TypeFormatted == enclosureTypeString
    ensures r.Enclosure.value.Length == lengthInBytes
    ensures OnlyChanged(v, r, [EnclosureField])
  {
    v.(Enclosure := Some(Enclosure(URL := url, Type := enclosureType,
                                   TypeFormatted := enclosureTypeString, Length := lengthInBytes)))
  }

  function AddEpisodeNumber(v: ItemValue, episodeNumber: int64): (r: ItemValue)
    ensures episodeNumber <= 0 ==> r == v
    ensures episodeNumber > 0 ==>
      r.EpisodeNumber == NatToString(episodeNumber as nat) &&
      ParseNat(r.EpisodeNumber) == Some(episodeNumber as nat)
    ensures OnlyChanged(v, r, [EpisodeNumberField])
  {
    if episodeNumber <= 0 then v
    else
      NatRoundTrip(episodeNumber as nat);
      v.(EpisodeNumber := FormatInt(episodeNumber as int))
  }

  function AddEpisodeType(v: ItemValue, episodeType: string): (r: ItemValue)
    ensures IsEpisodeType(episodeType) ==> r.EpisodeType == episodeType
    ensures !IsEpisodeType(episodeType) ==> r == v
    ensures OnlyChanged(v, r, [EpisodeTypeField])
  {
    if |episodeType| == 0 then v
    else if episodeType == EpisodeTypeFull || episodeType == EpisodeTypeTrailer
         || episodeType == EpisodeTypeBonus then v.(EpisodeType := episodeType)
    else v
  }

  function AddImage(v: ItemValue, url: string): (r: ItemValue)
    ensures url == [] ==> r == v
    ensures url != [] ==> r.IImage.Some? && r.IImage.value.HREF == url
    ensures OnlyChanged(v, r, [IImageField])
  {
    if |url| > 0 then v.(IImage := Some(IImage(HREF := url))) else v
  }

  function AddItunesBlock(v: ItemValue, block: string): (r: ItemValue)
    ensures r.IBlock == "Yes" <==> block == "hide"
    ensures r.IBlock == "No" <==> block != "hide"
    ensures OnlyChanged(v, r, [IBlockField])
  {
    if block == "hide" then v.(IBlock := "Yes") else v.(IBlock := "No")
  }

  function AddItunesTitle(v: ItemValue, title: string): (r: ItemValue)
    ensures title == [] ==> r == v
    ensures title != [] ==> r.ITitle == title
    ensures OnlyChanged(v, r, [ITitleField])
  {
    if |title| == 0 then v else v.(ITitle := title)
  }

  function AddParentalAdvisory(v: ItemValue, parentalAdvisory: string): (r: ItemValue)
    ensures parentalAdvisory == ParentalAdvisoryExplicit ==> r.IExplicit == "yes"
    ensures parentalAdvisory == ParentalAdvisoryClean ==> r.IExplicit == "no"
    ensures parentalAdvisory != ParentalAdvisoryExplicit && parentalAdvisory != ParentalAdvisoryClean ==> r == v
    ensures OnlyChanged(v, r, [IExplicitField])
  {
    if parentalAdvisory == ParentalAdvisoryExplicit then v.(IExplicit := "yes")
    else if parentalAdvisory == ParentalAdvisoryClean then v.(IExplicit := "no")
    else v
  }

  function AddPubDate(v: ItemValue, datetime: string): (r: ItemValue)
    ensures datetime == [] ==> r == v
    ensures datetime != [] ==> r.PubDate == datetime
    ensures OnlyChanged(v, r, [PubDateField])
  {
    if |datetime| == 0 then v else v.(PubDate := datetime)
  }

  function AddSeasonNumber(v: ItemValue, seasonNumber: int64): (r: ItemValue)
    ensures seasonNumber <= 0 ==> r == v
    ensures seasonNumber > 0 ==>
      r.SeasonNumber == NatToString(seasonNumber as nat) &&
      ParseNat(r.SeasonNumber) == Some(seasonNumber as nat)
    ensures OnlyChanged(v, r, [SeasonNumberField])
  {
    if seasonNumber <= 0 then v
    else
      NatRoundTrip(seasonNumber as nat);
      v.(SeasonNumber := FormatInt(seasonNumber as int))
  }

  /**
   * The text AddSummary hands to the HTML-to-text converter: the input cut to
   * its first MaxSummaryRunes characters.
   */
  function SummaryInput(summary: string): (t: string)
    ensures t <= summary
    ensures |t| == if |summary| > MaxSummaryRunes then MaxSummaryRunes else |summary|
  {
    if |summary| > MaxSummaryRunes then summary[..MaxSummaryRunes] else summary
  }

  /** html2text stands for the foreign HTML-to-text converter. */
  function AddSummary(v: ItemValue, summary: string, html2text: string -> string): (r: ItemValue)
    ensures r.ISummary.Some?
    ensures r.ISummary.value.Text == html2text(SummaryInput(summary))
    ensures OnlyChanged(v, r, [ISummaryField])
  {
    v.(ISummary := Some(ISummary(Text := html2text(SummaryInput(summary)))))
  }

  function AddDuration(v: ItemValue, durationInSeconds: int64): (r: ItemValue)
    ensures durationInSeconds <= 0 ==> r == v
    ensures durationInSeconds > 0 ==>
      r.IDuration == NatToString(durationInSeconds as nat) &&
      ParseNat(r.IDuration) == Some(durationInSeconds as nat)
    ensures OnlyChanged(v, r, [IDurationField])
  {
    if durationInSeconds <= 0 then v
    else
      NatRoundTrip(durationInSeconds as nat);
      v.(IDuration := FormatInt(durationInSeconds as int))
  }

  /** A summary of at most MaxSummaryRunes characters is passed on whole. */
  lemma ShortSummaryKept(summary: string)
    requires |summary| <= MaxSummaryRunes
    ensures SummaryInput(summary) == summary
  {
  }

  /** Setting the block flag twice with the same input is the same as setting it once. */
  lemma AddItunesBlockIdempotent(v: ItemValue, block: string)
    ensures AddItunesBlock(AddItunesBlock(v, block), block) == AddItunesBlock(v, block)
  {
  }

  /** The block flag depends on the last input only: an earlier call leaves no trace. */
  lemma AddItunesBlockLastWins(v: ItemValue, first: string, second: string)
    ensures AddItunesBlock(AddItunesBlock(v, first), second) == AddItunesBlock(v, second)
  {
  }

  /** Episode 533 is stored as "533" (the package's own AddDuration example uses the same number). */
  lemma NumberExample(v: ItemValue)
    ensures AddEpisodeNumber(v, 533).EpisodeNumber == "533"
    ensures AddSeasonNumber(v, 533).SeasonNumber == "533"
    ensures AddDuration(v, 533).IDuration == "533"
  {
    assert NatToString(533) == NatToString(53) + "3";
  }

  /** A negative enclosure length is stored as given: the setter does no clamping. */
  lemma EnclosureNegativeLengthKept(v: ItemValue)
    ensures AddEnclosure(v, "http://example.com/1.mp3", MP3, "audio/mpeg", -1).Enclosure.value.Length == -1
  {
  }
}
