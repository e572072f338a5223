/**
 * The episode record of the feed builder. Each setter checks its argument and
 * then updates one or two fields of the item in place; its postcondition ties
 * the new state to the corresponding function of ItemSpec applied to the old
 * state, whose contract says what changes and that nothing else does.
 */
module Podcast {
  import opened Wrappers
  import opened PodcastTypes
  import opened Decimal
  import ItemSpec

  class Item {
    var GUID: Option<GUID>
    var Title: string
    var Link: string
    var Description: Option<Description>
    var EncodedDescription: Option<EncodedContent>
    var AuthorFormatted: string
    var Category: string
    var Comments: string
    var Source: string
    var PubDate: string
    var Enclosure: Option<Enclosure>
    var IAuthor: string
    var ITitle: string
    var SeasonNumber: string
    var EpisodeNumber: string
    var EpisodeType: string
    var ISubtitle: string
    var ISummary: Option<ISummary>
    var IImage: Option<IImage>
    var IBlock: string
    var IDuration: string
    var IExplicit: string
    var IIsClosedCaptioned: string
    var IOrder: string

    /** The item's fields as a value. */
    function Value(): ItemSpec.ItemValue
      reads this
    {
      ItemSpec.ItemValue(
        GUID,
        Title,
        Link,
        Description,
        EncodedDescription,
        AuthorFormatted,
        Category,
        Comments,
        Source,
        PubDate,
        Enclosure,
        IAuthor,
        ITitle,
        SeasonNumber,
        EpisodeNumber,
        EpisodeType,
        ISubtitle,
        ISummary,
        IImage,
        IBlock,
        IDuration,
        IExplicit,
        IIsClosedCaptioned,
        IOrder)
    }

    /** A Go composite literal Item{}: every field at its zero value. */
    constructor ()
      ensures Value() == ItemSpec.Zero
    {
    GUID := None;
    Title := "";
    Link := "";
    Description := None;
    EncodedDescription := None;
    AuthorFormatted := "";
    Category := "";
    Comments := "";
    Source := "";
    PubDate := "";
    Enclosure := None;
    IAuthor := "";
    ITitle := "";
    SeasonNumber := "";
    EpisodeNumber := "";
    EpisodeType := "";
    ISubtitle := "";
    ISummary := None;
    IImage := None;
    IBlock := "";
    IDuration := "";
    IExplicit := "";
    IIsClosedCaptioned := "";
    IOrder := "";
    }

    method AddGUID(guid: string)
      modifies this
      ensures Value() == ItemSpec.AddGUID(old(Value()), guid)
    {
      if |guid| <= 0 {
        return;
      }
      GUID := Some(PodcastTypes.GUID.GUID(Value := guid, IsPermaLink := false));
    }

    method AddTitle(title: string)
      modifies this
      ensures Value() == ItemSpec.AddTitle(old(Value()), title)
    {
      if |title| <= 0 {
        return;
      }
      Title := title;
    }

    method AddLink(link: string)
      modifies this
      ensures Value() == ItemSpec.AddLink(old(Value()), link)
    {
      if |link| <= 0 {
        return;
      }
      Link := link;
    }

    method AddDescription(description: Description)
      modifies this
      ensures Value() == ItemSpec.AddDescription(old(Value()), description)
    {
      if |description.Text| <= 0 {
        return;
      }
      Description := Some(description);
      EncodedDescription := Some(EncodedContent(Text := description.Text));
      assert Value() == old(Value()).(Description := Description, EncodedDescription := EncodedDescription);
    }

    /** Adds the downloadable asset; the arguments are stored exactly as passed. */
    method AddEnclosure(url: string, enclosureType: EnclosureType,
                        enclosureTypeString: string, lengthInBytes: int64)
      modifies this
      ensures Value() == ItemSpec.AddEnclosure(old(Value()), url, enclosureType,
                                               enclosureTypeString, lengthInBytes)
    {
      Enclosure := Some(PodcastTypes.Enclosure.Enclosure(URL := url, Type := enclosureType,
                                                     TypeFormatted := enclosureTypeString, Length := lengthInBytes));
    }

    method AddEpisodeNumber(episodeNumber: int64)
      modifies this
      ensures Value() == ItemSpec.AddEpisodeNumber(old(Value()), episodeNumber)
    {
      if episodeNumber <= 0 {
        return;
      }
      EpisodeNumber := FormatInt(episodeNumber as int);
    }

    method AddEpisodeType(episodeType: string)
      modifies this
      ensures Value() == ItemSpec.AddEpisodeType(old(Value()), episodeType)
    {
      if |episodeType| == 0 {
        return;
      } else if episodeType == EpisodeTypeFull || episodeType == EpisodeTypeTrailer
                || episodeType == EpisodeTypeBonus {
        EpisodeType := episodeType;
      }
    }

    /** Adds the image as an iTunes-only image; RSS 2.0 has no item-level image. */
    method AddImage(url: string)
      modifies this
      ensures Value() == ItemSpec.AddImage(old(Value()), url)
    {
      if |url| > 0 {
        IImage := Some(PodcastTypes.IImage.IImage(HREF := url));
      }
    }

    method AddItunesBlock(block: string)
      modifies this
      ensures Value() == ItemSpec.AddItunesBlock(old(Value()), block)
    {
      if block == "hide" {
        IBlock := "Yes";
      } else {
        IBlock := "No";
      }
    }

    method AddItunesTitle(title: string)
      modifies this
      ensures Value() == ItemSpec.AddItunesTitle(old(Value()), title)
    {
      if |title| == 0 {
        return;
      }
      ITitle := title;
    }

    method AddParentalAdvisory(parentalAdvisory: string)
      modifies this
      ensures Value() == ItemSpec.AddParentalAdvisory(old(Value()), parentalAdvisory)
    {
      if parentalAdvisory == ParentalAdvisoryExplicit {
        IExplicit := "yes";
      } else if parentalAdvisory == ParentalAdvisoryClean {
        IExplicit := "no";
      }
    }

    method AddPubDate(datetime: string)
      modifies this
      ensures Value() == ItemSpec.AddPubDate(old(Value()), datetime)
    {
      if |datetime| == 0 {
        return;
      }
      PubDate := datetime;
    }

    method AddSeasonNumber(seasonNumber: int64)
      modifies this
      ensures Value() == ItemSpec.AddSeasonNumber(old(Value()), seasonNumber)
    {
      if seasonNumber <= 0 {
        return;
      }
      SeasonNumber := FormatInt(seasonNumber as int);
    }

    /**
     * Adds the iTunes summary, limited to 4000 characters; html2text stands
     * for the HTML-to-text converter the summary is passed through.
     */
    method AddSummary(summary: string, html2text: string -> string)
      modifies this
      ensures Value() == ItemSpec.AddSummary(old(Value()), summary, html2text)
    {
      var text := summary;
      var count := |text|;
      if count > ItemSpec.MaxSummaryRunes {
        text := text[0..ItemSpec.MaxSummaryRunes];
      }
      ISummary := Some(PodcastTypes.ISummary.ISummary(Text := html2text(text)));
    }

    /** Adds the duration, in seconds, to the iTunes duration field. */
    method AddDuration(durationInSeconds: int64)
      modifies this
      ensures Value() == ItemSpec.AddDuration(old(Value()), durationInSeconds)
    {
      if durationInSeconds <= 0 {
        return;
      }
      IDuration := FormatInt(durationInSeconds as int);
    }
  }
}
