/** The candidate a language augmenter hands to the aggregator. */
module LanguageResult {

  import opened Wrappers
  import opened ImportModel

  /**
   How strongly a candidate is backed by its evidence. Foldername is the tier
   of the folder-name augmenter. The enum's other members are declared
   outside this model: OtherTier stands for any of them, and its ordinal
   only tells one apart from another; it carries no order or meaning.
   */
  datatype Confidence = Foldername | OtherTier(ordinal: nat)

  /** The state of an AugmentLanguageResult, as a value. */
  datatype LanguageCandidate = LanguageCandidate(
    languages: Option<seq<Language>>,
    confidence: Confidence)

  /**
   A language list tagged with a confidence. Both properties are public and
   settable, so the object is mutable; the list may be null.
   */
  class AugmentLanguageResult {
    var languages: Option<seq<Language>>
    var confidence: Confidence

    /** Stores both arguments as given: no check, no copy, null accepted. */
    constructor (languages: Option<seq<Language>>, confidence: Confidence)
      ensures this.languages == languages
      ensures this.confidence == confidence
    {
      this.languages := languages;
      this.confidence := confidence;
    }

    /** The object's current state. */
    function Candidate(): LanguageCandidate
      reads this
    {
      LanguageCandidate(languages, confidence)
    }

    /** The `Languages` setter: the confidence is left as it was. */
    method SetLanguages(value: Option<seq<Language>>)
      modifies this`languages
      ensures languages == value
      ensures confidence == old(confidence)
    {
      languages := value;
    }

    /** The `Confidence` setter: the language list is left as it was. */
    method SetConfidence(value: Confidence)
      modifies this`confidence
      ensures confidence == value
      ensures languages == old(languages)
    {
      confidence := value;
    }
  }
}
