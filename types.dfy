/**
 * The value types an episode record refers to, and the named constants its
 * setters compare against. Their declarations live in files of the package
 * that are not part of this model; here each carries exactly the parts that
 * item.go reads or writes.
 */
module PodcastTypes {
  /** Go's int64. */
  newtype int64 = x: int | -0x8000_0000_0000_0000 <= x < 0x8000_0000_0000_0000

  /** The three itunes:episodeType values an item accepts. */
  const EpisodeTypeFull: string := "full"
  const EpisodeTypeTrailer: string := "trailer"
  const EpisodeTypeBonus: string := "bonus"

  /** The two parental-advisory settings an item understands. */
  const ParentalAdvisoryExplicit: string := "explicit"
  const ParentalAdvisoryClean: string := "clean"

  /** The recognised media types of an enclosure; distinct by construction. */
  datatype EnclosureType = M4A | M4V | MP4 | MP3 | MOV | PDF | EPUB

  /** <guid> with its isPermaLink attribute. */
  datatype GUID = GUID(Value: string, IsPermaLink: bool)

  /** <description> text. */
  datatype Description = Description(Text: string)

  /** <content:encoded> text. */
  datatype EncodedContent = EncodedContent(Text: string)

  /** <enclosure>: the downloadable asset; Length is in bytes. */
  datatype Enclosure = Enclosure(URL: string, Type: EnclosureType, TypeFormatted: string, Length: int64)

  /** <itunes:summary> text. */
  datatype ISummary = ISummary(Text: string)

  /** <itunes:image href=...>. */
  datatype IImage = IImage(HREF: string)

  /** The condition AddEpisodeType checks: s is one of the three episode-type constants, none of which is empty. */
  predicate IsEpisodeType(s: string)
    ensures IsEpisodeType(s) ==> s != []
  {
    s == EpisodeTypeFull || s == EpisodeTypeTrailer || s == EpisodeTypeBonus
  }

  /** The named constants are pairwise distinct and none is empty: the setters' contracts rely on nothing else about them. */
  lemma ConstantsDistinct()
    ensures EpisodeTypeFull != EpisodeTypeTrailer && EpisodeTypeFull != EpisodeTypeBonus
    ensures EpisodeTypeTrailer != EpisodeTypeBonus
    ensures ParentalAdvisoryExplicit != ParentalAdvisoryClean
    ensures !IsEpisodeType("")
    ensures ParentalAdvisoryExplicit != "" && ParentalAdvisoryClean != ""
  {
  }
}
