/**
 The inputs of a movie import that the language augmenters read. Only the
 fields an augmenter may consult are kept; the parser that fills them is not
 part of this model.
 */
module ImportModel {

  import opened Wrappers

  /** A language as the parser reports it; its internals do not matter here. */
  type Language(==)

  /** What the parser extracted from one name (a file name or a folder name). */
  datatype ParsedMovieInfo = ParsedMovieInfo(
    movieTitle: string,
    year: int,
    languages: Option<seq<Language>>)  // the C# list may be null

  /**
   One file being imported, with the evidence gathered about it. Every
   source of evidence may be absent.
   */
  datatype LocalMovie = LocalMovie(
    path: string,
    fileMovieInfo: Option<ParsedMovieInfo>,
    folderMovieInfo: Option<ParsedMovieInfo>,
    downloadClientMovieInfo: Option<ParsedMovieInfo>)
}
