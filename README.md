# sisu-litmus test support, modelled in Dafny

This project models the core of the Sonatype sisu-litmus test-support library, a set of
JUnit rules and Hamcrest matchers that tests use to find their data and record their runs.
It covers the following parts:

- **BeanMatchers.similarTo** (`bean_matchers.dfy`). The matcher calls two values similar in
  these cases:
  - both are `null`;
  - both are containers whose elements are similar in iteration order;
  - they are `equals`;
  - they are beans whose common getters return similar values.

  It records the first check that failed, with the path of getters and indices that leads to it.
- **DiffMatchers** (`diff_matchers.dfy`). This is a string matcher whose description is a
  side-by-side diff in the layout of `diff -y`, padded to a common column. It also models
  `maxLength`.
- **LogFileMatcher** (`log_file_matcher.dfy`). It succeeds at the first line of a log file
  that contains a text, or the name of an exception followed by `:`. It remembers that line
  for the mismatch text.
- **FileMatchers** (`file_matchers.dfy`). `readFully` reads a reader through a character
  buffer until end of stream. The `contains` and `doesNotContain` matchers collect the
  missing or present entries.
- **TestIndexRule** (`test_index_rule.dfy`). The rule keeps an index of test runs. On first
  use it counts the test, adds its record and names the test directory. It then stores the
  outcome, the duration, information and links in that record. `calculateRelativePath`
  turns a file into a link relative to the index directory.
- **TestDataRule**, **TestMethod** and **TestUtil** (`test_data_rule.dfy`, `test_method.dfy`,
  `test_util.dfy`, sharing `file_lookup.dfy`). They resolve a path against four directories,
  from the method's down to the root, and take the first that exists. `TestUtil` resolves
  paths against the base directory and keeps the temporary directory.
- **URLIsReachable** (`url_is_reachable.dfy`). A junit-ext checker configured from one to
  four string arguments.
- **ImplementsPartialJavaBean** (`partial_java_bean.dfy`). A Mockito answer that turns a
  mock into a bean with properties.

`java_text.dfy` and `java_runtime.dfy` hold the pieces of the Java platform this code relies
on, with the properties the core needs:

- `String.contains`, `replace`, `split`, `startsWith`, `trim().isEmpty()`;
- `Integer.parseInt` and `String.valueOf`;
- Guava's `padEnd`;
- `java.io.File` under Unix rules;
- `Class` names;
- Java's truncating division.

`wrappers.dfy` holds `Option` and `Result`.

Parts of the model take the form of the code they come from:

- Objects whose fields the code updates are classes with those fields. Their methods are
  proved against specification functions:
  - `SimilarMatcher.failing`;
  - the matchers' `item`, `missing` and `contained`;
  - `LogFileMatcher`'s failing line;
  - the rules' state;
  - the checker's settings;
  - the mock's property map.
- Loops are `while` loops with invariants.
- Pure decisions are functions with lemmas about them.

## Model

In the rows below, a list of names is *plain* (`TestIndexing.Plain`) when no name is empty, none holds the separator `/`, and none is `.` or `..`. A plain working directory is one whose names are plain. Canonical names taken against a plain working directory are plain. A file as the user builds it may still hold `.` and `..`.

| member | source | states |
|---|---|---|
| BeanMatchers.Hierarchy | litmus-testsupport/src/main/java/org/sonatype/sisu/litmus/testsupport/hamcrest/BeanMatchers.java:273-280 | the collected hierarchy never contains `java.lang.Object` |
| BeanMatchers.InstanceFilter | litmus-testsupport/src/main/java/org/sonatype/sisu/litmus/testsupport/hamcrest/BeanMatchers.java:223-227 | a value that is not an object is an instance of none of the classes |
| BeanMatchers.InstanceFilterMembers | litmus-testsupport/src/main/java/org/sonatype/sisu/litmus/testsupport/hamcrest/BeanMatchers.java:223-233 | a class is collected exactly when it is among the candidates and the actual value is an instance of it |
| BeanMatchers.GettersInMembers | litmus-testsupport/src/main/java/org/sonatype/sisu/litmus/testsupport/hamcrest/BeanMatchers.java:238-244 | a name is selected exactly when some listed method has that name, takes no parameter, is not `getClass` and starts with `get` or `is` |
| BeanMatchers.GettersOfMembers | litmus-testsupport/src/main/java/org/sonatype/sisu/litmus/testsupport/hamcrest/BeanMatchers.java:235-246 | a name is collected exactly when one of the collected classes lists it among its getters |
| BeanMatchers.CommonGetterNamesIff | litmus-testsupport/src/main/java/org/sonatype/sisu/litmus/testsupport/hamcrest/BeanMatchers.java:216-248 | a name is a common getter exactly when a class in expected's hierarchy or interfaces, of which actual is an instance, declares a getter of that name |
| BeanMatchers.NoCommonGettersWithNonObject | litmus-testsupport/src/main/java/org/sonatype/sisu/litmus/testsupport/hamcrest/BeanMatchers.java:216-233 | a `null`, a container or an array shares no getter with a bean; containers carry no class in the model |
| BeanMatchers.NullRule | litmus-testsupport/src/main/java/org/sonatype/sisu/litmus/testsupport/hamcrest/BeanMatchers.java:116-119 | with a `null` on either side, the verdict is whether both are `null`; otherwise the failure recorded is `equalTo(expected)` under the null check, with the actual value |
| BeanMatchers.ContainerKindRule | litmus-testsupport/src/main/java/org/sonatype/sisu/litmus/testsupport/hamcrest/BeanMatchers.java:307-358 | an expected iterable (or iterator) against a non-container fails the `isA(Iterable)` (or `isA(Iterator)`) check, and that check is recorded |
| BeanMatchers.ArrayCastRule | litmus-testsupport/src/main/java/org/sonatype/sisu/litmus/testsupport/hamcrest/BeanMatchers.java:322-327 | an expected array throws `ClassCastException` unless both sides are object arrays; two object arrays are compared element by element |
| BeanMatchers.SameKindElems | litmus-testsupport/src/main/java/org/sonatype/sisu/litmus/testsupport/hamcrest/BeanMatchers.java:122-132 | two iterables, two iterators or two object arrays are compared by the element loop |
| BeanMatchers.SkipSimilarElems | litmus-testsupport/src/main/java/org/sonatype/sisu/litmus/testsupport/hamcrest/BeanMatchers.java:343-352 | the element loop passes over positions whose elements are similar |
| BeanMatchers.ElemsPairwise | litmus-testsupport/src/main/java/org/sonatype/sisu/litmus/testsupport/hamcrest/BeanMatchers.java:343-356 | on equal lengths and without exceptions, the element loop succeeds exactly when every remaining pair is similar |
| BeanMatchers.EqualLengthPairwise | litmus-testsupport/src/main/java/org/sonatype/sisu/litmus/testsupport/hamcrest/BeanMatchers.java:343-356 | two containers of equal length are similar exactly when every positional pair is similar, in both directions |
| BeanMatchers.FirstElementMismatch | litmus-testsupport/src/main/java/org/sonatype/sisu/litmus/testsupport/hamcrest/BeanMatchers.java:346-350 | the first dissimilar position `k` decides; the record is the nested matcher at path `[k]`, and the failure path starts with `[k]` |
| BeanMatchers.ExpectedLonger | litmus-testsupport/src/main/java/org/sonatype/sisu/litmus/testsupport/hamcrest/BeanMatchers.java:352-354 | when actual runs out first after a similar prefix, the verdict is whether the first missing expected element is `null`; any other element is recorded as "expected has no more elements" |
| BeanMatchers.ActualLonger | litmus-testsupport/src/main/java/org/sonatype/sisu/litmus/testsupport/hamcrest/BeanMatchers.java:356 | when expected runs out first after a similar prefix, the verdict is whether the first surplus actual element is `null`; any other element is recorded as "actual has more elements" |
| BeanMatchers.EqualsShortCircuit | litmus-testsupport/src/main/java/org/sonatype/sisu/litmus/testsupport/hamcrest/BeanMatchers.java:134-140 | objects that are `equals` are similar at once, with nothing recorded |
| BeanMatchers.NoGettersDissimilar | litmus-testsupport/src/main/java/org/sonatype/sisu/litmus/testsupport/hamcrest/BeanMatchers.java:142-149 | unequal objects of a `java.lang` class, or without common getters, are dissimilar, and the `equalTo` failure is recorded |
| BeanMatchers.GettersVerdict | litmus-testsupport/src/main/java/org/sonatype/sisu/litmus/testsupport/hamcrest/BeanMatchers.java:151-176 | when every getter can be invoked, the getter loop succeeds exactly when every getter from position `k` on returns similar values |
| BeanMatchers.BeanByGetters | litmus-testsupport/src/main/java/org/sonatype/sisu/litmus/testsupport/hamcrest/BeanMatchers.java:142-181 | a bean that is not `equals` is similar exactly when every common getter returns similar values on both sides |
| BeanMatchers.GetterOrderIrrelevant | litmus-testsupport/src/main/java/org/sonatype/sisu/litmus/testsupport/hamcrest/BeanMatchers.java:234-247 | when every common getter can be invoked, visiting the same getters in another order (the set's order) gives the same verdict |
| BeanMatchers.GetterOrderMatters | litmus-testsupport/src/main/java/org/sonatype/sisu/litmus/testsupport/hamcrest/BeanMatchers.java:151-176 | when one getter cannot be invoked and another returns dissimilar values, visiting the first throws and visiting the second first answers `false` with a recorded failure |
| BeanMatchers.SkipSimilarGetters | litmus-testsupport/src/main/java/org/sonatype/sisu/litmus/testsupport/hamcrest/BeanMatchers.java:151-176 | the getter loop passes over getters whose values are similar |
| BeanMatchers.FirstGetterMismatch | litmus-testsupport/src/main/java/org/sonatype/sisu/litmus/testsupport/hamcrest/BeanMatchers.java:170-175 | the first getter with dissimilar values decides; the record is the nested matcher at path `.name()`, with actual's value |
| BeanMatchers.SimilarReflexive | litmus-testsupport/src/main/java/org/sonatype/sisu/litmus/testsupport/hamcrest/BeanMatchers.java:115-182 | every value without primitive arrays and iterators is similar to itself |
| BeanMatchers.ElemsReflexive | litmus-testsupport/src/main/java/org/sonatype/sisu/litmus/testsupport/hamcrest/BeanMatchers.java:343-356 | a container without primitive arrays and iterators, compared with its own elements, passes the whole loop and records nothing |
| BeanMatchers.PointScenario | litmus-testsupport/src/main/java/org/sonatype/sisu/litmus/testsupport/hamcrest/BeanMatchers.java:151-176 | points (1, 2) and (1, 3) are dissimilar at `.getY()`, where the actual value is 3 |
| BeanMatchers.PointGetters | litmus-testsupport/src/main/java/org/sonatype/sisu/litmus/testsupport/hamcrest/BeanMatchers.java:216-248 | the common getters of two points are `getX` and `getY`; `getClass` is excluded |
| BeanMatchers.IntegersDiffer | litmus-testsupport/src/main/java/org/sonatype/sisu/litmus/testsupport/hamcrest/BeanMatchers.java:134-149 | two different `Integer`s are dissimilar: `java.lang` classes are not beans |
| BeanMatchers.ShorterListScenario | litmus-testsupport/src/main/java/org/sonatype/sisu/litmus/testsupport/hamcrest/BeanMatchers.java:352-354 | `[1, 2, 3]` against `[1, 2]` fails after two elements, as "expected has no more elements" for 3 |
| BeanMatchers.SurplusNullScenario | litmus-testsupport/src/main/java/org/sonatype/sisu/litmus/testsupport/hamcrest/BeanMatchers.java:352-356 | `[1]` and `[1, null, 5]` are similar in both directions: a `null` first surplus element passes |
| BeanMatchers.SimilarMatcher.constructor | litmus-testsupport/src/main/java/org/sonatype/sisu/litmus/testsupport/hamcrest/BeanMatchers.java:95-98 | `similarTo(expected)` has the empty path and no failure |
| BeanMatchers.SimilarMatcher.Nested | litmus-testsupport/src/main/java/org/sonatype/sisu/litmus/testsupport/hamcrest/BeanMatchers.java:106-109 | a nested matcher has its expected value and its path, and no failure |
| BeanMatchers.SimilarMatcher.Matches | litmus-testsupport/src/main/java/org/sonatype/sisu/litmus/testsupport/hamcrest/BeanMatchers.java:115-182 | the outcome and the failure left in the field are those of the recursive similarity definition |
| BeanMatchers.SimilarMatcher.MatchGetters | litmus-testsupport/src/main/java/org/sonatype/sisu/litmus/testsupport/hamcrest/BeanMatchers.java:151-176 | the getter loop's outcome and record are those of the getter-loop definition |
| BeanMatchers.SimilarMatcher.Match | litmus-testsupport/src/main/java/org/sonatype/sisu/litmus/testsupport/hamcrest/BeanMatchers.java:290-298 | returns whether the `equalTo` or `isA` matcher accepts the value; on failure it records the matcher, the value and the check, and otherwise keeps the record |
| BeanMatchers.SimilarMatcher.MatchIterable | litmus-testsupport/src/main/java/org/sonatype/sisu/litmus/testsupport/hamcrest/BeanMatchers.java:307-313 | `matchIterable` agrees with the similarity definition for an expected iterable |
| BeanMatchers.SimilarMatcher.MatchIterator | litmus-testsupport/src/main/java/org/sonatype/sisu/litmus/testsupport/hamcrest/BeanMatchers.java:336-360 | `matchIterator` agrees with the similarity definition for an expected iterator |
| BeanMatchers.SimilarMatcher.MatchArray | litmus-testsupport/src/main/java/org/sonatype/sisu/litmus/testsupport/hamcrest/BeanMatchers.java:322-327 | `matchArray` agrees with the similarity definition for an expected array, the cast included |
| BeanMatchers.SimilarMatcher.MatchElements | litmus-testsupport/src/main/java/org/sonatype/sisu/litmus/testsupport/hamcrest/BeanMatchers.java:343-356 | the element loop's outcome and record are those of the element-loop definition |
| BeanMatchers.SimilarMatcher.GetInterfaces | litmus-testsupport/src/main/java/org/sonatype/sisu/litmus/testsupport/hamcrest/BeanMatchers.java:256-265 | each declared interface, then the interfaces it extends, in order |
| BeanMatchers.SimilarMatcher.CommonGetters | litmus-testsupport/src/main/java/org/sonatype/sisu/litmus/testsupport/hamcrest/BeanMatchers.java:216-248 | the common getter names: none for `null`, otherwise the getters of the hierarchy's and interfaces' classes that actual is an instance of |
| BeanMatchers.SimilarMatcher.InstancesAmong | litmus-testsupport/src/main/java/org/sonatype/sisu/litmus/testsupport/hamcrest/BeanMatchers.java:223-233 | the candidate classes actual is an instance of, in order |
| BeanMatchers.SimilarMatcher.GettersAmong | litmus-testsupport/src/main/java/org/sonatype/sisu/litmus/testsupport/hamcrest/BeanMatchers.java:235-246 | the getter names of the collected classes, class by class |
| BeanMatchers.SimilarMatcher.GettersAmongMethods | litmus-testsupport/src/main/java/org/sonatype/sisu/litmus/testsupport/hamcrest/BeanMatchers.java:238-244 | the getter names among one class's methods, in order |
| DiffMatchers.Paired | litmus-testsupport/src/main/java/org/sonatype/sisu/litmus/testsupport/hamcrest/DiffMatchers.java:120-142 | a `while (true)` pairing loop writes at least one row |
| DiffMatchers.PairedLength | litmus-testsupport/src/main/java/org/sonatype/sisu/litmus/testsupport/hamcrest/DiffMatchers.java:120-142 | a pairing loop writes as many rows as the longer of its two ranges, and at least one |
| DiffMatchers.PairedRow | litmus-testsupport/src/main/java/org/sonatype/sisu/litmus/testsupport/hamcrest/DiffMatchers.java:122-136 | row `j` of a pairing loop shows old line `f + j` and new line `t + j` where they exist, and blanks otherwise |
| DiffMatchers.PairedShape | litmus-testsupport/src/main/java/org/sonatype/sisu/litmus/testsupport/hamcrest/DiffMatchers.java:120-142 | the length and every row of a pairing loop |
| DiffMatchers.DelRowsShape | litmus-testsupport/src/main/java/org/sonatype/sisu/litmus/testsupport/hamcrest/DiffMatchers.java:147-151 | the deletion loop writes one `<` row per deleted line, in order, and no right-hand line |
| DiffMatchers.AddRowsShape | litmus-testsupport/src/main/java/org/sonatype/sisu/litmus/testsupport/hamcrest/DiffMatchers.java:157-162 | the addition loop writes one `> ` row per added line, in order, and no left-hand line |
| DiffMatchers.Longest | litmus-testsupport/src/main/java/org/sonatype/sisu/litmus/testsupport/hamcrest/DiffMatchers.java:80-92 | `maxLength` is at least every line's length and equals one of them, or is 0 |
| DiffMatchers.PairedColumns | litmus-testsupport/src/main/java/org/sonatype/sisu/litmus/testsupport/hamcrest/DiffMatchers.java:120-142 | a pairing loop shows each line of its two ranges exactly once, in order |
| DiffMatchers.DelColumns | litmus-testsupport/src/main/java/org/sonatype/sisu/litmus/testsupport/hamcrest/DiffMatchers.java:144-153 | a deletion shows exactly the deleted lines on the left and nothing on the right |
| DiffMatchers.AddColumns | litmus-testsupport/src/main/java/org/sonatype/sisu/litmus/testsupport/hamcrest/DiffMatchers.java:154-164 | an addition shows exactly the added lines on the right and nothing on the left |
| DiffMatchers.ChangeColumns | litmus-testsupport/src/main/java/org/sonatype/sisu/litmus/testsupport/hamcrest/DiffMatchers.java:144-191 | the rows of one difference show exactly its deleted and added ranges |
| DiffMatchers.EveryLineOnce | litmus-testsupport/src/main/java/org/sonatype/sisu/litmus/testsupport/hamcrest/DiffMatchers.java:106-218 | every line of the old text appears exactly once in the left column, in order, and every line of the new text exactly once in the right column |
| DiffMatchers.MarkersAligned | litmus-testsupport/src/main/java/org/sonatype/sisu/litmus/testsupport/hamcrest/DiffMatchers.java:102-103 | every row's left cell is padded to exactly `maxStrWidth`, so every marker starts in the same column |
| DiffMatchers.NoDifferences | litmus-testsupport/src/main/java/org/sonatype/sisu/litmus/testsupport/hamcrest/DiffMatchers.java:196-218 | without differences, the output has `max(1, |from|, |to|)` unchanged rows, row `j` showing line `j` of each text |
| DiffMatchers.SameTextUnchanged | litmus-testsupport/src/main/java/org/sonatype/sisu/litmus/testsupport/hamcrest/DiffMatchers.java:196-218 | a text compared with itself without differences shows the same line on both sides of every row, with no change marker |
| DiffMatchers.MaxLength | litmus-testsupport/src/main/java/org/sonatype/sisu/litmus/testsupport/hamcrest/DiffMatchers.java:80-92 | the loop computes the longest line's length |
| DiffMatchers.WritePaired | litmus-testsupport/src/main/java/org/sonatype/sisu/litmus/testsupport/hamcrest/DiffMatchers.java:120-142 | a `while (true)` loop appends exactly the text of its paired rows |
| DiffMatchers.WriteDeletedLines | litmus-testsupport/src/main/java/org/sonatype/sisu/litmus/testsupport/hamcrest/DiffMatchers.java:147-151 | the deletion loop appends the text of the deleted rows |
| DiffMatchers.WriteDeleted | litmus-testsupport/src/main/java/org/sonatype/sisu/litmus/testsupport/hamcrest/DiffMatchers.java:144-153 | a deletion writes the rows of that difference |
| DiffMatchers.WriteAddedLines | litmus-testsupport/src/main/java/org/sonatype/sisu/litmus/testsupport/hamcrest/DiffMatchers.java:157-162 | the addition loop appends the text of the added rows |
| DiffMatchers.WriteAdded | litmus-testsupport/src/main/java/org/sonatype/sisu/litmus/testsupport/hamcrest/DiffMatchers.java:154-164 | an addition writes the rows of that difference |
| DiffMatchers.WriteModified | litmus-testsupport/src/main/java/org/sonatype/sisu/litmus/testsupport/hamcrest/DiffMatchers.java:165-191 | a modification writes the lines of both ranges paired, marked `\| ` |
| DiffMatchers.WriteChange | litmus-testsupport/src/main/java/org/sonatype/sisu/litmus/testsupport/hamcrest/DiffMatchers.java:144-191 | the rows of one difference, and the lines after it where both texts continue |
| DiffMatchers.WriteChangeRows | litmus-testsupport/src/main/java/org/sonatype/sisu/litmus/testsupport/hamcrest/DiffMatchers.java:144-191 | the three branches of a difference; a difference that changes nothing writes nothing |
| DiffMatchers.WriteDifference | litmus-testsupport/src/main/java/org/sonatype/sisu/litmus/testsupport/hamcrest/DiffMatchers.java:108-193 | one iteration over the edit script writes the unchanged lines before a difference and that difference's rows, and keeps the script well formed |
| DiffMatchers.WriteScript | litmus-testsupport/src/main/java/org/sonatype/sisu/litmus/testsupport/hamcrest/DiffMatchers.java:105-220 | the loop over the edit script and the final loop write the text of all rows |
| DiffMatchers.DiffSideBySide | litmus-testsupport/src/main/java/org/sonatype/sisu/litmus/testsupport/hamcrest/DiffMatchers.java:94-221 | `diffSideBySide` produces the side-by-side rendering of the two texts' lines for the edit script |
| DiffMatchers.StringDiffMatcher.constructor | litmus-testsupport/src/main/java/org/sonatype/sisu/litmus/testsupport/hamcrest/DiffMatchers.java:43-46 | the matcher keeps the expected text and has no item yet |
| DiffMatchers.StringDiffMatcher.MatchesSafely | litmus-testsupport/src/main/java/org/sonatype/sisu/litmus/testsupport/hamcrest/DiffMatchers.java:49-61 | remembers the item; matches exactly when both are `null` or the texts are equal |
| DiffMatchers.StringDiffMatcher.Matches | litmus-testsupport/src/main/java/org/sonatype/sisu/litmus/testsupport/hamcrest/DiffMatchers.java:35-61 | a `null` item does not match and is not remembered; otherwise the item is remembered and matches exactly when equal |
| DiffMatchers.StringDiffMatcher.DescribeTo | litmus-testsupport/src/main/java/org/sonatype/sisu/litmus/testsupport/hamcrest/DiffMatchers.java:64-69 | a newline followed by the side-by-side diff of expected and item; a `null` side throws |
| FileLookup.NestedNames | litmus-testsupport/src/main/java/org/sonatype/sisu/litmus/testsupport/junit/TestDataRule.java:174-182 | a nested file holds the root's names followed by every path's names, in order |
| FileLookup.NestedSnoc | litmus-testsupport/src/main/java/org/sonatype/sisu/litmus/testsupport/junit/TestDataRule.java:177-180 | one more path resolves that path against the file built so far |
| FileLookup.PiecesOfPackagePath | litmus-testsupport/src/main/java/org/sonatype/sisu/litmus/testsupport/junit/TestDataRule.java:162-165 | the `/`-separated pieces of a package path are the package name's `.`-separated pieces |
| FileLookup.ComponentsOfPackagePath | litmus-testsupport/src/main/java/org/sonatype/sisu/litmus/testsupport/junit/TestDataRule.java:162-165 | the names of a package path are the non-empty parts of the package name |
| FileLookup.FirstIn | litmus-testsupport/src/main/java/org/sonatype/sisu/litmus/testsupport/junit/TestDataRule.java:66-85 | the position found exists and no earlier candidate does; no position means that no candidate exists |
| FileLookup.NotFoundMessage | litmus-testsupport/src/main/java/org/sonatype/sisu/litmus/testsupport/junit/TestDataRule.java:86-88 | the failure message starts with `Path <path> not found in any of: ` |
| FileLookup.LookupFirstExisting | litmus-testsupport/src/main/java/org/sonatype/sisu/litmus/testsupport/junit/TestDataRule.java:63-89 | a lookup succeeds exactly when one level exists, with the most specific one; otherwise it fails with the message naming all four |
| FileMatching.CollectedAppend | litmus-testsupport/src/main/java/org/sonatype/sisu/litmus/testsupport/hamcrest/FileMatchers.java:432-438 | reading two runs of chunks collects the two texts in order, unless the first fails |
| FileMatching.Reader.constructor | litmus-testsupport/src/main/java/org/sonatype/sisu/litmus/testsupport/hamcrest/FileMatchers.java:393 | a reader over its chunks, still open |
| FileMatching.Reader.Read | litmus-testsupport/src/main/java/org/sonatype/sisu/litmus/testsupport/hamcrest/FileMatchers.java:433 | `read(buffer)`: -1 at end of stream; the next chunk's characters, up to the buffer's length, are copied to its front and counted; a failure is thrown |
| FileMatching.ReadFully | litmus-testsupport/src/main/java/org/sonatype/sisu/litmus/testsupport/hamcrest/FileMatchers.java:423-440 | a non-positive buffer size is refused; otherwise the result is everything the stream delivers, `null` for nothing, or its failure, whatever the buffer size |
| FileMatching.ReadFullyReader | litmus-testsupport/src/main/java/org/sonatype/sisu/litmus/testsupport/hamcrest/FileMatchers.java:410-412 | the same with 8192 characters |
| FileMatching.ReadFullyFile | litmus-testsupport/src/main/java/org/sonatype/sisu/litmus/testsupport/hamcrest/FileMatchers.java:390-400 | a file that cannot be opened fails; an opened reader is read fully and closed |
| FileMatching.MissingMembers | litmus-testsupport/src/main/java/org/sonatype/sisu/litmus/testsupport/hamcrest/FileMatchers.java:314-318 | an entry is reported missing exactly when it is listed and the content lacks it |
| FileMatching.PresentMembers | litmus-testsupport/src/main/java/org/sonatype/sisu/litmus/testsupport/hamcrest/FileMatchers.java:354-358 | an entry is reported present exactly when it is listed and the content has it |
| FileMatching.EntriesPartition | litmus-testsupport/src/main/java/org/sonatype/sisu/litmus/testsupport/hamcrest/FileMatchers.java:314-358 | every entry is either missing or present, as often as it is listed |
| FileMatching.ContainsMatcher.constructor | litmus-testsupport/src/main/java/org/sonatype/sisu/litmus/testsupport/hamcrest/FileMatchers.java:303-307 | no item and no missing entry yet |
| FileMatching.ContainsMatcher.MatchesSafely | litmus-testsupport/src/main/java/org/sonatype/sisu/litmus/testsupport/hamcrest/FileMatchers.java:310-323 | adds the missing entries to `missing`, which is never cleared, and matches when it is empty; a read failure does not match; `null` content throws at the first entry |
| FileMatching.ContainsMatcher.CollectMissing | litmus-testsupport/src/main/java/org/sonatype/sisu/litmus/testsupport/hamcrest/FileMatchers.java:314-318 | the loop appends exactly the missing entries, in order |
| FileMatching.DoesNotContainMatcher.constructor | litmus-testsupport/src/main/java/org/sonatype/sisu/litmus/testsupport/hamcrest/FileMatchers.java:343-347 | no item and no contained entry yet |
| FileMatching.DoesNotContainMatcher.MatchesSafely | litmus-testsupport/src/main/java/org/sonatype/sisu/litmus/testsupport/hamcrest/FileMatchers.java:350-363 | adds the present entries to `contained`, which is never cleared, and matches when it is empty; a read failure does not match; `null` content throws at the first entry |
| FileMatching.DoesNotContainMatcher.CollectPresent | litmus-testsupport/src/main/java/org/sonatype/sisu/litmus/testsupport/hamcrest/FileMatchers.java:354-358 | the loop appends exactly the present entries, in order |
| JavaRuntime.Components | litmus-testsupport/src/main/java/org/sonatype/sisu/litmus/testsupport/TestUtil.java:122 | the names of a path string are non-empty and free of separators |
| JavaRuntime.Child | litmus-testsupport/src/main/java/org/sonatype/sisu/litmus/testsupport/TestUtil.java:129 | `new File(parent, child)` appends the child's names and keeps names valid |
| JavaRuntime.NewFileOfPathString | litmus-testsupport/src/main/java/org/sonatype/sisu/litmus/testsupport/TestUtil.java:143-145 | printing a normalised file and reading the text back with `new File` gives the same file |
| JavaRuntime.ComponentsConcat | litmus-testsupport/src/main/java/org/sonatype/sisu/litmus/testsupport/junit/TestDataRule.java:179 | the names of `x/y` are those of `x` followed by those of `y` |
| JavaRuntime.JavaDiv | litmus-testsupport/src/main/java/org/sonatype/sisu/litmus/testsupport/junit/TestIndexRule.java:136 | Java's integer division agrees with mathematical division on non-negative operands and truncates toward zero on negative ones |
| JavaText.ContainsIff | litmus-testsupport/src/main/java/org/sonatype/sisu/litmus/testsupport/hamcrest/LogFileMatcher.java:157 | `contains` holds exactly when the text occurs at some position |
| JavaText.ReplaceChar | litmus-testsupport/src/main/java/org/sonatype/sisu/litmus/testsupport/junit/TestDataRule.java:164 | `replace` keeps the string's length |
| JavaText.PadEndShape | litmus-testsupport/src/main/java/org/sonatype/sisu/litmus/testsupport/hamcrest/DiffMatchers.java:134 | `padEnd` keeps the string as a prefix, pads with spaces only, and reaches the width unless the string is longer |
| JavaText.ParseInt | litmus-testsupport/src/main/java/org/sonatype/sisu/litmus/testsupport/junitext/URLIsReachable.java:99 | `Integer.parseInt` only yields 32-bit values |
| JavaText.ParseIntOfIntToString | litmus-testsupport/src/main/java/org/sonatype/sisu/litmus/testsupport/junitext/URLIsReachable.java:99 | a 32-bit integer printed by `String.valueOf` parses back to itself |
| JavaText.Pieces | litmus-testsupport/src/main/java/org/sonatype/sisu/litmus/testsupport/hamcrest/DiffMatchers.java:98 | splitting always yields at least one piece |
| JavaText.JoinPieces | litmus-testsupport/src/main/java/org/sonatype/sisu/litmus/testsupport/hamcrest/DiffMatchers.java:98 | joining the pieces with the separator gives back the text |
| JavaText.PiecesAvoidSeparator | litmus-testsupport/src/main/java/org/sonatype/sisu/litmus/testsupport/hamcrest/DiffMatchers.java:98 | no piece contains the separator |
| JavaText.DropTrailingEmpty | litmus-testsupport/src/main/java/org/sonatype/sisu/litmus/testsupport/hamcrest/DiffMatchers.java:98 | `split` drops exactly the trailing empty pieces: a prefix, not ending in an empty piece, only empty pieces behind it |
| JavaText.Split | litmus-testsupport/src/main/java/org/sonatype/sisu/litmus/testsupport/hamcrest/DiffMatchers.java:98-99 | no line of a `split` text contains the separator |
| JavaText.Quoted | litmus-testsupport/src/main/java/org/sonatype/sisu/litmus/testsupport/hamcrest/LogFileMatcher.java:108 | Hamcrest quotes a string value between double quotes |
| LogFileMatching.MatchesLineIff | litmus-testsupport/src/main/java/org/sonatype/sisu/litmus/testsupport/hamcrest/LogFileMatcher.java:129-158 | a line is accepted exactly when the text (or `name:`) occurs in it |
| LogFileMatching.ExceptionLineHasName | litmus-testsupport/src/main/java/org/sonatype/sisu/litmus/testsupport/hamcrest/LogFileMatcher.java:129-132 | a line naming an exception with its colon also contains the bare name |
| LogFileMatching.FirstMatch | litmus-testsupport/src/main/java/org/sonatype/sisu/litmus/testsupport/hamcrest/LogFileMatcher.java:53-61 | the index found is a line of the file |
| LogFileMatching.FirstMatchIsFirst | litmus-testsupport/src/main/java/org/sonatype/sisu/litmus/testsupport/hamcrest/LogFileMatcher.java:53-61 | the line found is accepted and none before it is; no index means no line is accepted |
| LogFileMatching.FirstMatchIgnoresLaterLines | litmus-testsupport/src/main/java/org/sonatype/sisu/litmus/testsupport/hamcrest/LogFileMatcher.java:54-61 | lines after the first accepted one do not change the result |
| LogFileMatching.MismatchText | litmus-testsupport/src/main/java/org/sonatype/sisu/litmus/testsupport/hamcrest/LogFileMatcher.java:100-115 | the mismatch text names the remembered line exactly when there is one |
| LogFileMatching.LogFileMatcher.constructor | litmus-testsupport/src/main/java/org/sonatype/sisu/litmus/testsupport/hamcrest/LogFileMatcher.java:36-40 | no file, line number 0, no line |
| LogFileMatching.LogFileMatcher.MatchesSafely | litmus-testsupport/src/main/java/org/sonatype/sisu/litmus/testsupport/hamcrest/LogFileMatcher.java:43-72 | a `null` file throws and nothing changes; a read failure becomes an `AssertionError`; otherwise it matches at the first accepted line, remembering it with its 1-based number, and forgets line and number when none is accepted |
| LogFileMatching.LogFileMatcher.Matches | litmus-testsupport/src/main/java/org/sonatype/sisu/litmus/testsupport/hamcrest/LogFileMatcher.java:31-45 | a `null` file does not match; otherwise the verdict is whether some line is accepted |
| PartialJavaBean.Respond | litmus-testsupport/src/main/java/org/sonatype/sisu/litmus/testsupport/ImplementsPartialJavaBean.java:30-55 | only a one-argument `set…` call changes the property map |
| PartialJavaBean.SetThenGet | litmus-testsupport/src/main/java/org/sonatype/sisu/litmus/testsupport/ImplementsPartialJavaBean.java:32-51 | a setter with a value stores it under its own property only and returns `null`; that property's getter and `is` method then return the value |
| PartialJavaBean.SetNullRemoves | litmus-testsupport/src/main/java/org/sonatype/sisu/litmus/testsupport/ImplementsPartialJavaBean.java:32-54 | a setter given `null` removes its property and returns `null`; the getter then gets the default answer |
| PartialJavaBean.GetStored | litmus-testsupport/src/main/java/org/sonatype/sisu/litmus/testsupport/ImplementsPartialJavaBean.java:47-51 | a getter of a stored property returns its value and changes nothing |
| PartialJavaBean.OtherCallsDefault | litmus-testsupport/src/main/java/org/sonatype/sisu/litmus/testsupport/ImplementsPartialJavaBean.java:32-54 | every other call gets the default answer and changes nothing |
| PartialJavaBean.ImplementsPartialJavaBean.constructor | litmus-testsupport/src/main/java/org/sonatype/sisu/litmus/testsupport/ImplementsPartialJavaBean.java:27 | the property map starts empty |
| PartialJavaBean.ImplementsPartialJavaBean.Answer | litmus-testsupport/src/main/java/org/sonatype/sisu/litmus/testsupport/ImplementsPartialJavaBean.java:30-55 | the answer and the new property map are those of the reference definition on the old map |
| TestData.IndexOfChar | litmus-testsupport/src/main/java/org/sonatype/sisu/litmus/testsupport/junit/TestDataRule.java:194 | `indexOf` finds the first occurrence of the character |
| TestData.MethodDirectoryName | litmus-testsupport/src/main/java/org/sonatype/sisu/litmus/testsupport/junit/TestDataRule.java:190-197 | `mn` keeps a prefix of the name with no `[`, cut exactly at the first `[`, and the whole name when there is none |
| TestData.MethodDirectoryNameIdempotent | litmus-testsupport/src/main/java/org/sonatype/sisu/litmus/testsupport/junit/TestDataRule.java:190-197 | dropping the index part twice is dropping it once |
| TestData.ClassPathNames | litmus-testsupport/src/main/java/org/sonatype/sisu/litmus/testsupport/junit/TestDataRule.java:151-154 | the class path names the package's parts and then the simple name |
| TestData.MethodLevelInsideClass | litmus-testsupport/src/main/java/org/sonatype/sisu/litmus/testsupport/junit/TestDataRule.java:99-141 | the names of the four levels: the data directory, then the class path, the method directory and the path, down to the path alone |
| TestData.TestDataRule.constructor | litmus-testsupport/src/main/java/org/sonatype/sisu/litmus/testsupport/junit/TestDataRule.java:51-54 | the rule keeps its data directory and has no description yet |
| TestData.TestDataRule.Starting | litmus-testsupport/src/main/java/org/sonatype/sisu/litmus/testsupport/junit/TestDataRule.java:57-60 | a `null` description is rejected and nothing changes; otherwise it is recorded |
| TestData.TestDataRule.File | litmus-testsupport/src/main/java/org/sonatype/sisu/litmus/testsupport/junit/TestDataRule.java:174-182 | each path is resolved in turn against the file built so far |
| TestData.TestDataRule.ResolveFile | litmus-testsupport/src/main/java/org/sonatype/sisu/litmus/testsupport/junit/TestDataRule.java:63-89 | before `starting`, this fails; otherwise it gives the most specific existing level, or the not-found failure naming all four |
| TestData.NewTestDataRule | litmus-testsupport/src/main/java/org/sonatype/sisu/litmus/testsupport/junit/TestDataRule.java:51-54 | a `null` data directory is rejected; otherwise the new rule has it and no description |
| TestIndexing.ParentFile | litmus-testsupport/src/main/java/org/sonatype/sisu/litmus/testsupport/junit/TestIndexRule.java:309 | `getParentFile` drops the last name and is `null` exactly for the root and a single relative name |
| TestIndexing.RelativePathAsWritten | litmus-testsupport/src/main/java/org/sonatype/sisu/litmus/testsupport/junit/TestIndexRule.java:305-326 | `calculateRelativePath` as written, on canonical paths with `.` and `..` resolved; a file without a parent fails |
| TestIndexing.RelativePath | litmus-testsupport/src/main/java/org/sonatype/sisu/litmus/testsupport/junit/TestIndexRule.java:305-326 | the corrected relative path; a file without a parent fails |
| TestIndexing.RelativePathUp | litmus-testsupport/src/main/java/org/sonatype/sisu/litmus/testsupport/junit/TestIndexRule.java:324-325 | a file neither at nor below `from` gets `..` followed by the relative path from the parent |
| TestIndexing.RelativePathHere | litmus-testsupport/src/main/java/org/sonatype/sisu/litmus/testsupport/junit/TestIndexRule.java:316-323 | the same file gives `""`; a file below gives the rest of its path after the separator |
| TestIndexing.RelativePathResolves | litmus-testsupport/src/main/java/org/sonatype/sisu/litmus/testsupport/junit/TestIndexRule.java:305-326 | for a plain working directory and a `from` with plain names, where the relative path exists, following it from `from` arrives at `to`; `to` may hold `.` and `..` |
| TestIndexing.CanonicalRelativePathResolves | litmus-testsupport/src/main/java/org/sonatype/sisu/litmus/testsupport/junit/TestIndexRule.java:305-326 | climbing from the canonical directory, the relative path, where it exists, leads from `from` to `to` whatever `.` and `..` both files hold |
| TestIndexing.RelativePathCanonicalAgrees | litmus-testsupport/src/main/java/org/sonatype/sisu/litmus/testsupport/junit/TestIndexRule.java:309-325 | for a `from` with plain names the canonical climb gives the corrected relative path wherever that one exists |
| TestIndexing.AsWrittenDotDotParent | litmus-testsupport/src/main/java/org/sonatype/sisu/litmus/testsupport/junit/TestIndexRule.java:309-325 | from `/x/y/z/..` to `/x/w` both functions answer `../../../w`, which leads to `/w` |
| TestIndexing.CorrectedDotDotParent | litmus-testsupport/src/main/java/org/sonatype/sisu/litmus/testsupport/junit/TestIndexRule.java:309-325 | climbing from the canonical directory `/x/y`, the answer is `../w`, which leads to `/x/w` |
| TestIndexing.ExampleSubDirectory | litmus-testsupport/src/main/java/org/sonatype/sisu/litmus/testsupport/junit/TestIndexRule.java:320-323 | from `a/b/c` to `a/b/c/d` is `d`, as written and corrected, in any plain working directory |
| TestIndexing.ExampleParent | litmus-testsupport/src/main/java/org/sonatype/sisu/litmus/testsupport/junit/TestIndexRule.java:316-325 | from `a/b/c/d` to `a/b/c` is `..`, as written and corrected, in any plain working directory |
| TestIndexing.ExampleCousinFromGrandparent | litmus-testsupport/src/main/java/org/sonatype/sisu/litmus/testsupport/junit/TestIndexRule.java:320-323 | from `a/b` to `a/b/e/f` is `e/f`, as written and corrected, in any plain working directory |
| TestIndexing.ExampleCousinFromParent | litmus-testsupport/src/main/java/org/sonatype/sisu/litmus/testsupport/junit/TestIndexRule.java:324-325 | from `a/b/c` to `a/b/e/f` is `../e/f`, as written and corrected, in any plain working directory |
| TestIndexing.ExampleCousin | litmus-testsupport/src/main/java/org/sonatype/sisu/litmus/testsupport/junit/TestIndexRule.java:324-325 | from `a/b/c/d` to `a/b/e/f` is `../../e/f`, as written and corrected, in any plain working directory |
| TestIndexing.ExampleDotDot | litmus-testsupport/src/main/java/org/sonatype/sisu/litmus/testsupport/junit/TestIndexRule.java:316-318 | from `/a/c` to `/a/b/../c` is the empty path, as written and corrected: both compare canonical paths |
| TestIndexing.AsWrittenAgrees | litmus-testsupport/src/main/java/org/sonatype/sisu/litmus/testsupport/junit/TestIndexRule.java:305-326 | the code as written gives the corrected path when no level of `from` is a string prefix of a sibling on `to`'s path and `to` has no blank name |
| TestIndexing.AsWrittenSiblingPrefix | litmus-testsupport/src/main/java/org/sonatype/sisu/litmus/testsupport/junit/TestIndexRule.java:320-323 | as written, `/a/b` to `/a/bc` gives `""`, which does not lead to `/a/bc` |
| TestIndexing.CorrectedSiblingPrefix | litmus-testsupport/src/main/java/org/sonatype/sisu/litmus/testsupport/junit/TestIndexRule.java:320-323 | corrected, `/a/b` to `/a/bc` gives `../bc` |
| TestIndexing.AsWrittenBlankName | litmus-testsupport/src/main/java/org/sonatype/sisu/litmus/testsupport/junit/TestIndexRule.java:325 | as written, `/a/b` to `/a/ ` gives `..`, which does not lead to `/a/ ` |
| TestIndexing.CorrectedBlankName | litmus-testsupport/src/main/java/org/sonatype/sisu/litmus/testsupport/junit/TestIndexRule.java:325 | corrected, `/a/b` to `/a/ ` gives `../ ` |
| TestIndexing.WithCurrent | litmus-testsupport/src/main/java/org/sonatype/sisu/litmus/testsupport/junit/TestIndexRule.java:117 | setting a field of the field `test` changes that record only, in place |
| TestIndexing.WithCurrentOthers | litmus-testsupport/src/main/java/org/sonatype/sisu/litmus/testsupport/junit/TestIndexRule.java:117 | every other record stays as it was |
| TestIndexing.StartingStep | litmus-testsupport/src/main/java/org/sonatype/sisu/litmus/testsupport/junit/TestIndexRule.java:107-111 | `starting` fails exactly for a `null` description, which changes nothing |
| TestIndexing.InitStep | litmus-testsupport/src/main/java/org/sonatype/sisu/litmus/testsupport/junit/TestIndexRule.java:194-222 | `initialize` keeps the rule coherent; afterwards the rule is initialized; it fails exactly before `starting` or on an unreadable index |
| TestIndexing.SucceededStep | litmus-testsupport/src/main/java/org/sonatype/sisu/litmus/testsupport/junit/TestIndexRule.java:114-118 | `succeeded` keeps the rule coherent |
| TestIndexing.FailedStep | litmus-testsupport/src/main/java/org/sonatype/sisu/litmus/testsupport/junit/TestIndexRule.java:121-130 | `failed` keeps the rule coherent |
| TestIndexing.FinishedStep | litmus-testsupport/src/main/java/org/sonatype/sisu/litmus/testsupport/junit/TestIndexRule.java:133-138 | `finished` keeps the rule coherent |
| TestIndexing.RecordStep | litmus-testsupport/src/main/java/org/sonatype/sisu/litmus/testsupport/junit/TestIndexRule.java:160-171 | `recordInfo` and `recordLink` keep the rule coherent |
| TestIndexing.RecordLinkFileStep | litmus-testsupport/src/main/java/org/sonatype/sisu/litmus/testsupport/junit/TestIndexRule.java:174-188 | `recordLink(key, file)` records the relative path as written, keeps the rule coherent and does nothing for a missing file |
| TestIndexing.InitOnce | litmus-testsupport/src/main/java/org/sonatype/sisu/litmus/testsupport/junit/TestIndexRule.java:197 | initializing again changes nothing: each test is counted once |
| TestIndexing.FirstInit | litmus-testsupport/src/main/java/org/sonatype/sisu/litmus/testsupport/junit/TestIndexRule.java:197-221 | the first initialization adds one to the stored counter, appends exactly one record (numbered with it, naming class and method), saves the index and names the test directory after the counter |
| TestIndexing.RecordAppends | litmus-testsupport/src/main/java/org/sonatype/sisu/litmus/testsupport/junit/TestIndexRule.java:160-171 | one entry is appended to the test's record; nothing else changes |
| TestIndexing.OutcomeRecorded | litmus-testsupport/src/main/java/org/sonatype/sisu/litmus/testsupport/junit/TestIndexRule.java:113-130 | `succeeded` marks the record successful; `failed` marks it failed with the throwable's message; nothing else changes |
| TestIndexing.FinishedSaves | litmus-testsupport/src/main/java/org/sonatype/sisu/litmus/testsupport/junit/TestIndexRule.java:133-138 | `finished` records the elapsed whole seconds, truncated, and the saved index holds the index |
| TestIndexing.RecordLinkFileResolves | litmus-testsupport/src/main/java/org/sonatype/sisu/litmus/testsupport/junit/TestIndexRule.java:174-188 | a link recorded for an existing file holds a relative path leading from the index directory to the file, wherever the code as written agrees with the corrected path (no level of the index directory a string prefix of a sibling, no blank name), for a plain working directory and an index directory with plain names |
| TestIndexing.TestIndexRule.constructor | litmus-testsupport/src/main/java/org/sonatype/sisu/litmus/testsupport/junit/TestIndexRule.java:101-104 | a new rule: not started, not initialized, empty index |
| TestIndexing.TestIndexRule.Starting | litmus-testsupport/src/main/java/org/sonatype/sisu/litmus/testsupport/junit/TestIndexRule.java:107-111 | the new state is the `starting` step's |
| TestIndexing.TestIndexRule.Initialize | litmus-testsupport/src/main/java/org/sonatype/sisu/litmus/testsupport/junit/TestIndexRule.java:194-222 | the new state and failure are the `initialize` step's |
| TestIndexing.TestIndexRule.Save | litmus-testsupport/src/main/java/org/sonatype/sisu/litmus/testsupport/junit/TestIndexRule.java:272-295 | the index file now holds the index |
| TestIndexing.TestIndexRule.Succeeded | litmus-testsupport/src/main/java/org/sonatype/sisu/litmus/testsupport/junit/TestIndexRule.java:114-118 | the new state and failure are the `succeeded` step's |
| TestIndexing.TestIndexRule.Failed | litmus-testsupport/src/main/java/org/sonatype/sisu/litmus/testsupport/junit/TestIndexRule.java:121-130 | the new state and failure are the `failed` step's |
| TestIndexing.TestIndexRule.Finished | litmus-testsupport/src/main/java/org/sonatype/sisu/litmus/testsupport/junit/TestIndexRule.java:133-138 | the new state and failure are the `finished` step's |
| TestIndexing.TestIndexRule.GetDirectory | litmus-testsupport/src/main/java/org/sonatype/sisu/litmus/testsupport/junit/TestIndexRule.java:141-145 | initializes, and then gives `indexDir/<counter>` |
| TestIndexing.TestIndexRule.GetDirectoryNamed | litmus-testsupport/src/main/java/org/sonatype/sisu/litmus/testsupport/junit/TestIndexRule.java:148-157 | initializes, and then gives `name` inside the test directory |
| TestIndexing.TestIndexRule.RecordInfo | litmus-testsupport/src/main/java/org/sonatype/sisu/litmus/testsupport/junit/TestIndexRule.java:160-164 | the new state is that of recording a non-link entry |
| TestIndexing.TestIndexRule.RecordLink | litmus-testsupport/src/main/java/org/sonatype/sisu/litmus/testsupport/junit/TestIndexRule.java:167-171 | the new state is that of recording a link entry |
| TestIndexing.TestIndexRule.RecordLinkFile | litmus-testsupport/src/main/java/org/sonatype/sisu/litmus/testsupport/junit/TestIndexRule.java:174-188 | the new state and failure are those of recording a link to a file, with the relative path as written |
| TestMethods.TestMethod.constructor | litmus-testsupport/src/main/java/org/sonatype/sisu/litmus/testsupport/TestMethod.java:46-48 | keeps its `TestUtil`; no method name yet |
| TestMethods.TestMethod.Starting | litmus-testsupport/src/main/java/org/sonatype/sisu/litmus/testsupport/TestMethod.java:56-58 | remembers the method's name |
| TestMethods.TestMethod.TargetDirMethodFile | litmus-testsupport/src/main/java/org/sonatype/sisu/litmus/testsupport/TestMethod.java:78-93 | `target/<root>/<TestMethod's class directory>/<name>/<path>`; before `starting`, the `null` name throws |
| TestMethods.TestMethod.ResolveFile | litmus-testsupport/src/main/java/org/sonatype/sisu/litmus/testsupport/TestMethod.java:110-128 | the first existing level, from method directory to root, or `FileNotFoundException` naming all four |
| TestMethods.TestMethod.LevelsNested | litmus-testsupport/src/main/java/org/sonatype/sisu/litmus/testsupport/TestMethod.java:140-212 | the four levels are the root nested with class directory, name and path, down to the path alone |
| TestMethods.ClassDirectoryOfTopLevel | litmus-testsupport/src/main/java/org/sonatype/sisu/litmus/testsupport/TestMethod.java:184 | a top-level class's directory names its package's parts and then its simple name |
| TestMethods.TargetDirMethodFileNames | litmus-testsupport/src/main/java/org/sonatype/sisu/litmus/testsupport/TestMethod.java:78-93 | the method file's names: base directory, `target`, root, class directory, name, path, in that order |
| TestUtilities.TestUtil.constructor | litmus-testsupport/src/main/java/org/sonatype/sisu/litmus/testsupport/TestUtil.java:44-47 | keeps the owning class and the base directory; no temporary directory yet |
| TestUtilities.TestUtil.ResolveFile | litmus-testsupport/src/main/java/org/sonatype/sisu/litmus/testsupport/TestUtil.java:119-133 | `null` is rejected exactly; an absolute path is kept; a relative one is taken inside the base directory |
| TestUtilities.TestUtil.ResolvePath | litmus-testsupport/src/main/java/org/sonatype/sisu/litmus/testsupport/TestUtil.java:143-145 | fails exactly for `null` |
| TestUtilities.TestUtil.TargetDir | litmus-testsupport/src/main/java/org/sonatype/sisu/litmus/testsupport/TestUtil.java:98-100 | `target` inside the base directory, as `resolveFile("target")` gives it |
| TestUtilities.TestUtil.GetTmpDir | litmus-testsupport/src/main/java/org/sonatype/sisu/litmus/testsupport/TestUtil.java:102-107 | a directory that was set is kept; otherwise the target directory, remembered from then on |
| TestUtilities.TestUtil.SetTmpDir | litmus-testsupport/src/main/java/org/sonatype/sisu/litmus/testsupport/TestUtil.java:109-111 | the temporary directory is the one given |
| TestUtilities.ResolvePathRoundTrip | litmus-testsupport/src/main/java/org/sonatype/sisu/litmus/testsupport/TestUtil.java:143-145 | reading back the printed resolved path gives the resolved file |
| UrlChecking.ConfigureSucceedsIff | litmus-testsupport/src/main/java/org/sonatype/sisu/litmus/testsupport/junitext/URLIsReachable.java:91-113 | `init` succeeds exactly when there are one to four arguments, the first is a URL, and the second and third, where given, are non-negative numbers |
| UrlChecking.ConfigureSettings | litmus-testsupport/src/main/java/org/sonatype/sisu/litmus/testsupport/junitext/URLIsReachable.java:96-112 | after success the URL is the first argument, and each optional field is its argument or its default (10000 ms, 200, `null`) |
| UrlChecking.ConfigureChecksInOrder | litmus-testsupport/src/main/java/org/sonatype/sisu/litmus/testsupport/junitext/URLIsReachable.java:92-109 | the argument count is checked first, then the URL; every other failure is an `IllegalArgumentException` |
| UrlChecking.ParseExamples | litmus-testsupport/src/main/java/org/sonatype/sisu/litmus/testsupport/junitext/URLIsReachable.java:99-105 | `parseInt` of `100`, `-100`, `-1000` and `notanumber` |
| UrlChecking.ConfigureTimeoutExample | litmus-testsupport/src/main/java/org/sonatype/sisu/litmus/testsupport/junitext/URLIsReachable.java:98-103 | a timeout of `100` is stored |
| UrlChecking.ConfigureNegativeTimeoutExample | litmus-testsupport/src/main/java/org/sonatype/sisu/litmus/testsupport/junitext/URLIsReachable.java:100-102 | a timeout of `-100` is refused with its message |
| UrlChecking.ConfigureNotANumberExample | litmus-testsupport/src/main/java/org/sonatype/sisu/litmus/testsupport/junitext/URLIsReachable.java:99 | `notanumber` and `null` as the timeout are `NumberFormatException`s |
| UrlChecking.ConfigureNegativeStatusExample | litmus-testsupport/src/main/java/org/sonatype/sisu/litmus/testsupport/junitext/URLIsReachable.java:106-108 | a status of `-1000` is refused with its message |
| UrlChecking.URLIsReachable.constructor | litmus-testsupport/src/main/java/org/sonatype/sisu/litmus/testsupport/junitext/URLIsReachable.java:67-70 | the field defaults: no URL, 10000 ms, 200, no message |
| UrlChecking.URLIsReachable.Init | litmus-testsupport/src/main/java/org/sonatype/sisu/litmus/testsupport/junitext/URLIsReachable.java:91-113 | the fields and the failure are those of the reference definition, fields assigned before a failure included |
| UrlChecking.NewURLIsReachable | litmus-testsupport/src/main/java/org/sonatype/sisu/litmus/testsupport/junitext/URLIsReachable.java:87-89 | a checker exactly when `init` succeeds, with its settings; otherwise the failure |
| UrlChecking.NewURLIsReachableFromString | litmus-testsupport/src/main/java/org/sonatype/sisu/litmus/testsupport/junitext/URLIsReachable.java:77-80 | a checker with the defaults exactly when the string is a URL; otherwise `MalformedURLException` |

## Left out

- Whether `new URL(text)` accepts a text is a parameter (`isUrl`). The reachability check `satisfy()` uses the network and is not modelled.
- The clock is a parameter: `now` stands for `System.currentTimeMillis()`.
- Which files exist is a parameter (`existing`, `fileExists`).
- `mkdirs()` and its `checkState` in `initialize` and `getDirectory(name)` are not modelled: creating a directory is assumed to succeed.
- `copyStyleSheets` is not modelled: it copies two class-path resources.
- The JAXB format of `index.xml` is not modelled. The index file is the value it holds, or unreadable.
- `failed` also stores the stack trace; the stack trace is not modelled.
- Canonical paths resolve `.` and `..` but not symbolic links.
- `TestUtil`'s base directory is a constructor parameter. `initBaseDir` (the `basedir` property and the code source) and `createTempFile`/`createTempDir` (file-system calls) are left out.
- The regular-expression matcher `hasText(Pattern)` and the other regex-based file matchers are not modelled: Java's regex semantics are not in this model.
- The `describeTo`/`describeNegationTo` texts of the matchers are not modelled beyond `LogFileMatcher`'s mismatch text and `StringDiffMatcher.describeTo`. Hamcrest's `appendValueList` output is not modelled either.
- BeanMatchers.SimilarMatcher.Matches: reflection (`getClass()`, `getMethods()`, `isInstance`, `invoke`) is replaced by class descriptions; a getter that cannot be invoked is one fault.
- BeanMatchers.SimilarMatcher.CommonGetters: returns the names in discovery order, where Java collects `Method`s into a `HashSet`, whose iteration order is unspecified. `GetterOrderIrrelevant` proves that the order does not change the verdict when every common getter can be invoked. When one throws, the order can decide between an exception and `false`, and which failure is recorded (`GetterOrderMatters`).
- BeanMatchers.SimilarMatcher.Matches: `describeTo` and `describeMismatch` are not modelled; the record they print is.
- The Hamcrest `equalTo` of two containers is never asked for, so container equality is not modelled.
- The diff library (`new Diff(...).diff()`) is an input: the edit script must be well formed.
- `Integer.parseInt` accepts ASCII digits only; other Unicode digits are not modelled.
- Mockito's default answer (`super.answer`) is a value of its own; what it returns is not modelled. The argument values are of any type.
- `TestMethod.getTargetDirMethodFile` uses `getClass()`; the model takes `TestMethod` itself, not a subclass.
- The `default` package is the empty package name.
- Some loop bodies are separate methods (`MatchGetters`, `MatchElements`, `CollectMissing`, `CollectPresent`, `WriteDifference`, `WriteDeletedLines`, `WriteAddedLines`). Each states the same loop, with the caller's invariant as its contract.
- BeanMatchers.Similar: the recorded failure is what `failingMatcher`, `failingActual` and `failingCheck` hold. The check's debug text (`"Iterated element is similar " + actual + "/" + expected`) is the check's name only.
- The surplus-element rule follows the code. Containers of different lengths are similar when the first surplus element is `null` (`SurplusNullScenario`), whatever comes after it.
- BeanMatchers.SimilarReflexive: iterators are left out. Matching an iterator against itself advances it twice per step, so it is not similar to itself in Java; the model treats an iterator as an unshared sequence and promises reflexivity only for values without iterators.
- BeanMatchers.ElemsReflexive: no promise for iterators, for the same reason as `SimilarReflexive`.
- BeanMatchers.SimilarMatcher.Matches: an iterator is modelled as an unshared, unconsumed sequence of its remaining elements. Matching does not spend it, and an expected and an actual iterator that are the same object are not modelled.
- DiffMatchers.Longest: lengths are counted in characters, not in Java's UTF-16 code units; a line with characters outside the Basic Multilingual Plane is shorter here than `String.length()` says.
- DiffMatchers.MaxLength: the same character count as `Longest`.
- JavaText.PadEndShape: pads to a width in characters, not UTF-16 code units, as `Longest` does.
- TestIndexing.RelativePathResolves: promised only for a `from` with plain names. With `..` in `from` the code climbs abstract parents and can answer a path that leads elsewhere (see "## Findings"). `CanonicalRelativePathResolves` states the property for the corrected climb and any `from`.
- TestIndexing.RecordLinkFileResolves: promised only for an index directory with plain names, for the same reason as `RelativePathResolves`.
- BeanMatchers.GetterOrderIrrelevant: promised only when every common getter can be invoked. When one getter throws, the `HashSet` order can decide between an exception and `false`, and which failure is recorded (`GetterOrderMatters`).
- BeanMatchers.NoCommonGettersWithNonObject: containers are modelled as values without a class, so an iterable or iterator is an instance of no class. A Java class that implements `Iterable` or `Iterator` and also has getters, compared with an expected bean it is an instance of, would have its getters compared; the model answers by `equals` alone.
- TestIndexing.RecordStep: `withTestInfos(...)` is taken to append each info to the record's list. The rule's test `recordOnlyLastInfo` (src/test/java/org/sonatype/sisu/litmus/testsupport/junit/TestIndexRuleTest.java:99-106) expects a second `recordInfo` with the same key to replace the first; that behaviour lives in the JAXB-generated `TestXO` class, which is not part of this model.

## Findings

| source | as written | input that shows it | evidently intended | confidence | as-written member | corrected member |
|---|---|---|---|---|---|---|
| litmus-testsupport/src/main/java/org/sonatype/sisu/litmus/testsupport/junit/TestIndexRule.java:320-322 | `toPath.startsWith(fromPath)` treats a sibling whose name extends `from`'s last name as lying below `from`, and skips one character as if it were the separator | from `/a/b` to `/a/bc`: returns `""`, which leads back to `/a/b` | below `from` only when `toPath` starts with `fromPath + "/"`, giving `../bc` | not executed | TestIndexing.AsWrittenSiblingPrefix | TestIndexing.CorrectedSiblingPrefix |
| litmus-testsupport/src/main/java/org/sonatype/sisu/litmus/testsupport/junit/TestIndexRule.java:325 | `relativePath.trim().isEmpty()` drops a relative path made only of blanks, not only the empty one | from `/a/b` to `/a/ ` (a directory named by one space): returns `..`, which leads to `/a` | drop only the empty relative path, giving `../ `; `RelativePathResolves` proves the corrected path leads to `to` for a plain `from` | not executed | TestIndexing.AsWrittenBlankName | TestIndexing.CorrectedBlankName |
| litmus-testsupport/src/main/java/org/sonatype/sisu/litmus/testsupport/junit/TestIndexRule.java:309-325 | the path is compared canonically but the recursion climbs `from.getParentFile()`, the abstract parent, which for a `from` ending in `..` is not the parent of the canonical directory | from `/x/y/z/..` (canonically `/x/y`) to `/x/w`: returns `../../../w`, which leads to `/w` | climb from `from`'s canonical directory, giving `../w`; `CanonicalRelativePathResolves` proves that path leads to `to` for any `from` | not executed | TestIndexing.AsWrittenDotDotParent | TestIndexing.CorrectedDotDotParent |
