/**
 The augmenter that proposes the languages found in the name of the folder a
 movie file sits in. It has no opinion when the folder told nothing.
 */
module LanguageFromFolder {

  import opened Wrappers
  import opened ImportModel
  import opened LanguageResult

  /**
   `localMovie.FolderMovieInfo?.Languages`: null when the folder info is null,
   and otherwise whatever the folder info holds, null included.
   */
  function FolderLanguages(m: LocalMovie): (r: Option<seq<Language>>)
    ensures r.Some? <==> m.folderMovieInfo.Some? && m.folderMovieInfo.value.languages.Some?
    ensures r.Some? ==> r.value == m.folderMovieInfo.value.languages.value
  {
    match m.folderMovieInfo
    case None => None
    case Some(info) => info.languages
  }

  /**
   The augmenter's answer. None is "no opinion"; a candidate carries the
   folder's list verbatim (an empty list included) at Foldername confidence.
   */
  function AugmentLanguage(m: LocalMovie): (r: Option<LanguageCandidate>)
    ensures r.None? <==> m.folderMovieInfo.None? || m.folderMovieInfo.value.languages.None?
    ensures r.Some? ==> r.value.languages == m.folderMovieInfo.value.languages
    ensures r.Some? ==> r.value.languages.Some? && r.value.confidence == Foldername
  {
    var languages := FolderLanguages(m);
    if languages.None? then None
    else Some(LanguageCandidate(languages, Foldername))
  }

  /**
   The augmenter as the import pipeline calls it: null, or a newly allocated
   result object whose state is the candidate above.
   */
  method AugmentLanguageObject(m: LocalMovie) returns (r: AugmentLanguageResult?)
    ensures r == null <==> AugmentLanguage(m).None?
    ensures r != null ==> fresh(r) && r.Candidate() == AugmentLanguage(m).value
  {
    var languages := FolderLanguages(m);
    if languages == None {
      return null;
    }
    r := new AugmentLanguageResult(languages, Foldername);
  }

  /** A movie whose folder name yielded exactly the given languages. */
  function MovieWithFolderLanguages(languages: Option<seq<Language>>): (m: LocalMovie)
    ensures m.folderMovieInfo.Some? && FolderLanguages(m) == languages
  {
    LocalMovie("", None, Some(ParsedMovieInfo("", 0, languages)), None)
  }

  /**
   What the augmenter can answer: no opinion, or a non-null list at
   Foldername confidence; and every such list is answered for some movie.
   */
  lemma AugmentLanguageRange(c: Option<LanguageCandidate>)
    ensures (exists m :: AugmentLanguage(m) == c) <==>
            (c.None? || (c.value.languages.Some? && c.value.confidence == Foldername))
  {
    if c.None? {
      assert AugmentLanguage(LocalMovie("", None, None, None)) == c;
    } else if c.value.languages.Some? && c.value.confidence == Foldername {
      assert AugmentLanguage(MovieWithFolderLanguages(c.value.languages)) == c;
    }
  }

  /**
   Both null steps of `FolderMovieInfo?.Languages` lead to no opinion, and
   neither is an error: a missing folder info, and a folder info whose
   language list is null.
   */
  lemma NoOpinionHasTwoCauses(m: LocalMovie)
    ensures m.folderMovieInfo.None? ==> AugmentLanguage(m).None?
    ensures m.folderMovieInfo.Some? && m.folderMovieInfo.value.languages.None? ==> AugmentLanguage(m).None?
  {
  }

  /** An empty, non-null list is still an opinion, with the empty list. */
  lemma EmptyListIsAnOpinion(m: LocalMovie)
    requires FolderLanguages(m) == Some([])
    ensures AugmentLanguage(m) == Some(LanguageCandidate(Some([]), Foldername))
  {
  }

  /**
   The answer depends on the folder's language list and on nothing else, and
   two different lists (or a list and null) give different answers.
   */
  lemma SameAnswerIffSameFolderLanguages(m1: LocalMovie, m2: LocalMovie)
    ensures AugmentLanguage(m1) == AugmentLanguage(m2) <==> FolderLanguages(m1) == FolderLanguages(m2)
  {
  }

  /** The file name, the download client and the path are never consulted. */
  lemma IgnoresOtherEvidence(m: LocalMovie, path: string,
                             fileInfo: Option<ParsedMovieInfo>, clientInfo: Option<ParsedMovieInfo>)
    ensures AugmentLanguage(m.(path := path, fileMovieInfo := fileInfo,
                               downloadClientMovieInfo := clientInfo)) == AugmentLanguage(m)
  {
  }
}
