# Language from the folder name, in Dafny

When a movie file is imported, several "augmenters" each look at one source
of evidence and propose the languages of the release, tagged with a
confidence level; an aggregator later merges the proposals. This project
models one augmenter, the one that reads the languages the parser found in
the name of the folder holding the file, together with the result record
every language augmenter returns.

- `import_model.dfy` (module `ImportModel`): the inputs. `LocalMovie` holds
  optional parse results (`fileMovieInfo`, `folderMovieInfo`,
  `downloadClientMovieInfo`) and a path; `ParsedMovieInfo` holds an optional
  language list (the C# list may be null). `Language` is an abstract type.
- `language_result.dfy` (module `LanguageResult`): the `Confidence` enum, the
  mutable class `AugmentLanguageResult` with its constructor and the two
  property setters, and `LanguageCandidate`, the object's state as a value.
- `language_from_folder.dfy` (module `LanguageFromFolder`): the null-conditional
  read `FolderMovieInfo?.Languages`, the augmenter as a pure function, the
  augmenter as a method that allocates the result object, and the lemmas.
- `wrappers.dfy` (module `Wrappers`): `Option`, which stands for a
  reference the source checks for null (`None` is `null`); the augmenter's
  own argument is not wrapped, since the source never checks it.

## Model

| member | source | states |
|---|---|---|
| `LanguageFromFolder.FolderLanguages` | src/NzbDrone.Core/MediaFiles/MovieImport/Aggregation/Aggregators/Augmenters/Language/AugmentLanguageFromFolder.cs:9 | `FolderMovieInfo?.Languages` is non-null exactly when the folder info and its list are both non-null, and is then that list |
| `LanguageFromFolder.AugmentLanguage` | src/NzbDrone.Core/MediaFiles/MovieImport/Aggregation/Aggregators/Augmenters/Language/AugmentLanguageFromFolder.cs:7-17 | no opinion exactly when the folder info is null or its list is null; otherwise a candidate whose list is the folder's list itself (same elements, same order) and whose confidence is `Foldername` |
| `LanguageFromFolder.AugmentLanguageObject` | src/NzbDrone.Core/MediaFiles/MovieImport/Aggregation/Aggregators/Augmenters/Language/AugmentLanguageFromFolder.cs:7-17 | returns null exactly when the pure answer is "no opinion"; otherwise a newly allocated result object whose state is that answer; the input is a value and is not changed |
| `LanguageFromFolder.AugmentLanguageRange` | src/NzbDrone.Core/MediaFiles/MovieImport/Aggregation/Aggregators/Augmenters/Language/AugmentLanguageFromFolder.cs:11-16 | an answer is possible exactly when it is "no opinion" or a non-null list at `Foldername`: no other tier is ever produced, and every list is produced for some movie |
| `LanguageFromFolder.NoOpinionHasTwoCauses` | src/NzbDrone.Core/MediaFiles/MovieImport/Aggregation/Aggregators/Augmenters/Language/AugmentLanguageFromFolder.cs:9-14 | for every movie, a null folder info gives "no opinion", and so does a non-null folder info whose language list is null; neither is an error |
| `LanguageFromFolder.EmptyListIsAnOpinion` | src/NzbDrone.Core/MediaFiles/MovieImport/Aggregation/Aggregators/Augmenters/Language/AugmentLanguageFromFolder.cs:11 | an empty but non-null folder list yields a candidate with the empty list at `Foldername` |
| `LanguageFromFolder.SameAnswerIffSameFolderLanguages` | src/NzbDrone.Core/MediaFiles/MovieImport/Aggregation/Aggregators/Augmenters/Language/AugmentLanguageFromFolder.cs:9 | two movies get equal answers if and only if their folder language lists are equal (both null, or the same list) |
| `LanguageFromFolder.IgnoresOtherEvidence` | src/NzbDrone.Core/MediaFiles/MovieImport/Aggregation/Aggregators/Augmenters/Language/AugmentLanguageFromFolder.cs:9 | replacing the path, the file-name parse or the download-client parse does not change the answer |
| `LanguageResult.AugmentLanguageResult.constructor` | src/NzbDrone.Core/MediaFiles/MovieImport/Aggregation/Aggregators/Augmenters/Language/AugmentLanguageResult.cs:10-15 | `Languages` and `Confidence` equal the arguments as given, with a null or empty list accepted |
| `LanguageResult.AugmentLanguageResult.SetLanguages` | src/NzbDrone.Core/MediaFiles/MovieImport/Aggregation/Aggregators/Augmenters/Language/AugmentLanguageResult.cs:7 | setting `Languages` stores the value and leaves `Confidence` unchanged |
| `LanguageResult.AugmentLanguageResult.SetConfidence` | src/NzbDrone.Core/MediaFiles/MovieImport/Aggregation/Aggregators/Augmenters/Language/AugmentLanguageResult.cs:8 | setting `Confidence` stores the value and leaves `Languages` unchanged |

## Left out

- AugmentLanguage: a null `localMovie` makes line 9 throw a null-reference exception, because its first member access is a plain `.`; the model's `LocalMovie` argument is a value that is never null, so that error path is not modelled.
- AugmentLanguageObject: the same null-`localMovie` exception is not modelled, for the same reason; `Option` stands for null only where the source uses `?.` or stores a possibly-null list.
- The `IAugmentLanguage` interface: Dafny traits are not used; every language augmenter would have the signature of `AugmentLanguage`, `LocalMovie -> Option<LanguageCandidate>`.
- The aggregator that merges candidates, the other language augmenters and any ordering of confidence tiers: their source is not part of this model.
- `Confidence` members other than `Foldername`: the enum is declared outside this model, so they appear only as `OtherTier(ordinal)`, without their names or order.
- `Language`, `LocalMovie` and `ParsedMovieInfo` are declared outside this model: `Language` is abstract, and the two records keep only a few stand-in fields beside the ones the augmenter reads.
- How folder names are parsed into languages: done by the parser, which is not part of this model.
- Reference identity of the C# `List<Language>`: the returned list is the folder's own list object; the model states only that it is equal as a sequence, so a later mutation through one alias being visible through the other is not captured.
- The property getters of `AugmentLanguageResult`: they are plain field reads.
