# Course exercises in Rust: a Dafny model of their sequential core

This project models the sequential logic of a set of Rust course exercises and proves properties of it.

- **Parallel file processor.** This covers everything around the thread pool:
  - the per-file text statistics (line count, word count, character frequencies);
  - the shaping of an analysis attempt into a `FileAnalysis` record;
  - the short-circuit of a job that finds the cancellation flag set;
  - the loop in `main` that aggregates the results sent back by the workers.
- **Book catalogue.** `save_books` writes one `title author year` line per book. `load_books` parses lines back, keeping the first, second and last token. The model proves exactly how lossy this round trip is, line by line, for titles and authors without a line break.
- **Small exercises.** These are `is_even`, `check_guess`, FizzBuzz, array sum, array maximum and the guessing loop; string concatenation, clone-and-append and the `&mut` range sum; the `Student` record; the product closure and the counting closure.

Modules:

- `RustStr` (`rust_str.dfy`) models the pieces of Rust's `str` API the code relies on:
  - `char::is_whitespace`, which is the Unicode White_Space property;
  - `split_whitespace`, `trim` and `lines`.
- `RustInt` (`rust_int.dfy`) models `i32` and `u16` ranges and Rust's `%`, which truncates toward zero.
- `DecimalText` (`decimal_text.dfy`) models the decimal text that `format!` writes and `parse::<u16>` reads.
- `Wrappers` (`wrappers.dfy`) holds `Option` and `Result`.
- `FileProcessor` (`file_processor.dfy`) models `parallel-file-processor-project/src/main.rs`.
- `BookCatalogue` (`book_catalogue.dfy`) models `struct_book_catalogue_assignment/src/main.rs`.
- `Homework` (`homework.dfy`) models `homework_1/src/main.rs`.
- `BorrowPractice` (`borrow_practice.dfy`) models `rust-borrow-practice/src/main.rs`.
- `RustStruct` (`student.dfy`) models `rust-struct/src/main.rs`.
- `Closures` (`closures.dfy`) models `closure-assignment/src/main.rs`.

Inputs that stand in for I/O:

- **File system.** The result of opening and reading a file is the `FileAccess` datatype: open fails, metadata fails, the read fails after the size is known, or the text is read.
- **Durations.** These are `nat` nanosecond counts.
- **Cancellation.** The aggregator gets a `seq<bool>` parallel to the results. Entry `i` says whether the flag was set when result `i` arrived.
- **Book file.** This is its sequence of lines; `save_books` is taken to write one line per book, which holds when no title or author contains '\n'. Loading is split into parsing every line (`ParseAll`) and the loop over the parsed lines (`Collect`), so `Load(lines) == Collect(ParseAll(lines))`. The loading properties are stated over the parsed lines.
- **Printed output.** Where output matters, it is a returned value, such as the FizzBuzz labels or the guess count.

Facts about the code that the model keeps:

- **Aggregator tallies.** The final report counts only processed results and successes. A cancelled or failed result is processed but is not a success, and no separate failure or cancellation tally exists.
- **Size after a decode failure.** Any error replaces the statistics with the defaults, so the size is 0 even when the metadata was read before the failure.
- **Line count.** The line count is `lines().count()`, which counts an unterminated last line as well as every '\n'-terminated one.

## Model

| member | source | states |
|---|---|---|
| `RustStr.LineCount` | parallel-file-processor-project/src/main.rs:150 | the number of lines is the number of '\n' plus one when the text is non-empty and does not end in '\n'; empty text has 0 lines |
| `RustStr.StartsAfterToken` | parallel-file-processor-project/src/main.rs:151 | no run of non-whitespace characters begins inside a token, so counting resumes after it as after a break |
| `RustStr.WordCountIsRunCount` | parallel-file-processor-project/src/main.rs:151 | the number of whitespace-separated words equals the number of maximal runs of non-whitespace characters, counted independently by scanning for run starts |
| `RustStr.NoWordsIffAllWhitespace` | parallel-file-processor-project/src/main.rs:151 | there are no words exactly when every character is whitespace (empty text included) |
| `RustStr.WordsAreTokens` | parallel-file-processor-project/src/main.rs:151 | every word is non-empty and contains no whitespace |
| `RustStr.WordsAcrossSeparator` | struct_book_catalogue_assignment/src/main.rs:43 | splitting `x + [w] + y` at a whitespace `w` gives the words of `x` followed by the words of `y` |
| `RustStr.WordsOfTrim` | struct_book_catalogue_assignment/src/main.rs:35-43 | trimming a line does not change its words |
| `RustStr.TrimEmptyIffNoWords` | struct_book_catalogue_assignment/src/main.rs:35-37 | a line trims to nothing exactly when it has no words |
| `FileProcessor.FrequencyStep` | parallel-file-processor-project/src/main.rs:152-154 | counting one more character into a frequency map gives the frequency map of the longer text, with the same key set, counts and total |
| `FileProcessor.ValueSumIncrement` | parallel-file-processor-project/src/main.rs:153 | `entry(c).or_insert(0) += 1` raises the sum of all counts by exactly one |
| `FileProcessor.CountCharacters` | parallel-file-processor-project/src/main.rs:152-154 | starting from an empty map and counting every character gives the frequency map of the whole text |
| `FileProcessor.RunAnalysis` | parallel-file-processor-project/src/main.rs:132-157 | an open or metadata failure gives `IoError` and a read failure gives `Utf8Error`; for readable text it gives the size, the line count above, the word count as the run count, and a map whose keys are exactly the characters present, each mapped to its number of occurrences, with counts summing to the text length |
| `FileProcessor.Outcome` | parallel-file-processor-project/src/main.rs:160-170 | the errors list is empty exactly on success; on success the stats are kept; on failure the stats are `DefaultStats` and the list holds exactly that one error |
| `FileProcessor.AnalyzeFile` | parallel-file-processor-project/src/main.rs:129-171 | at most one error, none exactly when the file is readable; a failed analysis has default stats, so size 0 even after the metadata was read; the error kind follows the step that failed |
| `FileProcessor.RunJob` | parallel-file-processor-project/src/main.rs:231-246 | with the flag set the outcome is `CancelledOutcome`: `[Cancelled]` with default stats and zero time, whatever the file; otherwise it is the analysis of the file |
| `FileProcessor.FirstCancel` | parallel-file-processor-project/src/main.rs:258-263 | the position of the first observed cancellation: no earlier observation is set, and the one at that position is set unless it is the end |
| `FileProcessor.Aggregate` | parallel-file-processor-project/src/main.rs:253-281 | processed = the number of results before the first observed cancellation (checked before counting); successes, total words and total time are taken over error-free results among those only |
| `FileProcessor.NoCancelConsumesAll` | parallel-file-processor-project/src/main.rs:258-265 | without an observed cancellation every result is processed |
| `FileProcessor.SuccessCountBound` | parallel-file-processor-project/src/main.rs:265-276 | successes never exceed the processed results, and equal them exactly when every processed result is error-free |
| `FileProcessor.ErroredChangesNoTally` | parallel-file-processor-project/src/main.rs:267-271 | a result with an error, a cancelled one included, changes neither successes nor word total nor time total |
| `FileProcessor.AllErroredNoTally` | parallel-file-processor-project/src/main.rs:233-276 | when every result carries an error (for instance all jobs saw the flag), successes, words and time are all 0 |
| `DecimalText.ParseDecimal` | struct_book_catalogue_assignment/src/main.rs:54 | parsing the decimal text `format!` writes for a `u16` gives the same `u16` back |
| `BookCatalogue.SaveBooks` | struct_book_catalogue_assignment/src/main.rs:10-21 | exactly one line per book, in list order, each the `FormatBook` text `title + " " + author + " " + year` |
| `BookCatalogue.ParseLineMeaning` | struct_book_catalogue_assignment/src/main.rs:34-61 | `ParseLine` (one iteration of the loop) on a line (after `trim`) is blank exactly when it is all whitespace; skipped exactly for 1 or 2 tokens; a book exactly when there are 3 or more tokens and the last parses as a `u16`, with title = token 0, author = token 1 and that year; otherwise a parse error naming the last token |
| `BookCatalogue.LoadBooks` | struct_book_catalogue_assignment/src/main.rs:23-65 | the loop over the lines, with its `continue` and its stop at the first bad year, returns exactly `Load(lines)`, that is `Collect(ParseAll(lines))` |
| `BookCatalogue.CollectFailurePersists` | struct_book_catalogue_assignment/src/main.rs:54 | once a year fails to parse (the `unwrap` panic), later lines do not matter |
| `BookCatalogue.CollectFailsIffBadYear` | struct_book_catalogue_assignment/src/main.rs:46-54 | loading fails exactly when some line has 3 or more tokens and a last token that is not a `u16`; the error names the first such line and its token |
| `BookCatalogue.ParsedIndices` | struct_book_catalogue_assignment/src/main.rs:46-61 | the indices of the lines that yield a book, strictly increasing, containing every such line |
| `BookCatalogue.CollectKeepsOrder` | struct_book_catalogue_assignment/src/main.rs:29-64 | the loaded books are exactly the books of the accepted lines, in line order, so there are no more books than lines |
| `BookCatalogue.CollectAllParsed` | struct_book_catalogue_assignment/src/main.rs:29-64 | lines that all parse to books load as exactly those books, in order |
| `BookCatalogue.LoadParsedLines` | struct_book_catalogue_assignment/src/main.rs:23-65 | the same, from the lines of a file |
| `BookCatalogue.FormatThenParse` | struct_book_catalogue_assignment/src/main.rs:17-54 | a formatted line loads as title = first word and author = second word of "title author", with the year intact; it is skipped when those fields hold fewer than two words |
| `BookCatalogue.FormattedWords` | struct_book_catalogue_assignment/src/main.rs:17 | the words of a formatted line are the words of the title, then those of the author, then the year's decimal text |
| `BookCatalogue.ParseFromWords` | struct_book_catalogue_assignment/src/main.rs:35-54 | a line whose words end in a year's decimal text loads that year with the first two words as title and author, or is skipped when only one word precedes the year |
| `BookCatalogue.SingleWordLine` | struct_book_catalogue_assignment/src/main.rs:17-54 | a book whose title and author are single words is read back from its line unchanged |
| `BookCatalogue.SaveLoadRoundTrip` | struct_book_catalogue_assignment/src/main.rs:10-65 | save then load returns the original books when every title and author is one non-empty whitespace-free word |
| `BookCatalogue.SecondAuthorWordDropped` | struct_book_catalogue_assignment/src/main.rs:43-54 | a one-word title with a two-word author loads with only the author's first word |
| `BookCatalogue.TitleWordsTakeOver` | struct_book_catalogue_assignment/src/main.rs:43-54 | for any title of two or more words, the loaded title and author are its first and second words and the author is lost |
| `BookCatalogue.LeadingWords` | struct_book_catalogue_assignment/src/main.rs:43 | a text of two space-separated tokens followed by the end of the text or by whitespace splits into those two tokens followed by the words of the rest |
| `BookCatalogue.TokenThenRest` | struct_book_catalogue_assignment/src/main.rs:43 | a token followed by the end of the text or by whitespace is the first word, and the rest supplies the remaining words |
| `BookCatalogue.TwoWordTitle` | struct_book_catalogue_assignment/src/main.rs:43-54 | a title of two words separated by a space, followed by nothing or by whitespace, loads as its first word by its second, whatever the author |
| `BookCatalogue.FirstExampleLine` | struct_book_catalogue_assignment/src/main.rs:69 | "1984" by "George Orwell" loads as "1984" by "George" |
| `BookCatalogue.SecondExampleLine` | struct_book_catalogue_assignment/src/main.rs:70 | "To Kill a Mockingbird" by "Harper Lee" loads as "To" by "Kill" |
| `BookCatalogue.LoadTwoLines` | struct_book_catalogue_assignment/src/main.rs:56-60 | two accepted lines load as their two books, in order |
| `BookCatalogue.ExampleCatalogueIsLossy` | struct_book_catalogue_assignment/src/main.rs:67-80 | the program's own catalogue comes back as "1984" by "George" and "To" by "Kill" |
| `RustInt.RustRemZeroIffDivides` | homework_1/src/main.rs:32 | Rust's truncating `%` and Euclidean `%` agree on `== 0` for the divisors 2, 3, 5 and 15, negative operands included |
| `Homework.IsEven` | homework_1/src/main.rs:31-33 | true exactly when 2 divides n, negative n included |
| `Homework.CheckGuess` | homework_1/src/main.rs:82-92 | -1 iff guess < secret, 1 iff guess > secret, 0 iff they are equal |
| `Homework.DivisibleBy15` | homework_1/src/main.rs:45 | 15 divides n exactly when 3 and 5 both do |
| `Homework.ClassifyMeaning` | homework_1/src/main.rs:38-56 | `Classify` (the if-chain) gives FizzBuzz iff divisible by 3 and 5; Fizz iff by 3 only; Buzz iff by 5 only; otherwise even or odd by `is_even` |
| `Homework.FizzBuzzLabels` | homework_1/src/main.rs:44-56 | one label per number, in array order, each the classification of that number |
| `Homework.SumArray` | homework_1/src/main.rs:59-65 | the while loop ends with the sum of all elements, provided no partial sum overflows `i32` |
| `Homework.LargestNum` | homework_1/src/main.rs:69-75 | the result is at least 0 and every element, and is an element unless it is 0, in particular whenever some element is positive |
| `Homework.CountGuesses` | homework_1/src/main.rs:102-124 | the count is the 1-based position of the first correct guess, or the number of guesses when none is correct |
| `Homework.ExampleLabels` | homework_1/src/main.rs:37-56 | the labels for the array [1,5,2,9,8,6,30,4,7,3] |
| `Homework.PrefixSumsOfExample` | homework_1/src/main.rs:59-64 | the running sums of the example array, which stay within `i32` and end at 75 |
| `Homework.ExampleSum` | homework_1/src/main.rs:59-65 | for the exercise's array no running sum overflows `i32`, and the sum is 75 |
| `Homework.ExampleLargest` | homework_1/src/main.rs:69-75 | for the exercise's array, any element that is at least every element is 30 |
| `Homework.Assignment2` | homework_1/src/main.rs:35-76 | for the exercise's array, the printed labels, the sum 75 and the largest number 30 |
| `Homework.Assignment3` | homework_1/src/main.rs:94-128 | for guesses [1,5,8,9,4] and secret 4 the count is 5 |
| `BorrowPractice.ConcatStrings` | rust-borrow-practice/src/main.rs:3-6 | the result has length \|s1\|+\|s2\|, begins with s1 and ends with s2 |
| `BorrowPractice.ConcatExample` | rust-borrow-practice/src/main.rs:29-32 | "Hello, " and "World!" give "Hello, World!" |
| `BorrowPractice.CloneAndModify` | rust-borrow-practice/src/main.rs:10-15 | the result is the unchanged argument followed by " World!" |
| `BorrowPractice.RangeSumClosedForm` | rust-borrow-practice/src/main.rs:22-24 | twice the sum of `low..=high` is (high-low+1)(low+high) |
| `BorrowPractice.Sum` | rust-borrow-practice/src/main.rs:20-25 | the total grows by the sum of every integer in `low..=high`, given by the closed form, and is unchanged when low > high; no running total may overflow `i32` |
| `BorrowPractice.SumExample` | rust-borrow-practice/src/main.rs:40-44 | from 0 with low 0 and high 100 the total is 5050 |
| `RustStruct.Student.constructor` | rust-struct/src/main.rs:7-12 | stores exactly the given name and major |
| `RustStruct.Student.GetName` | rust-struct/src/main.rs:14-16 | returns the current name |
| `RustStruct.Student.SetName` | rust-struct/src/main.rs:17-19 | replaces the name and leaves the major unchanged |
| `RustStruct.Student.GetMajor` | rust-struct/src/main.rs:21-23 | returns the current major |
| `RustStruct.Student.SetMajor` | rust-struct/src/main.rs:24-26 | replaces the major and leaves the name unchanged |
| `RustStruct.UpdateStudent` | rust-struct/src/main.rs:31-40 | after both setters the getters return the new name and major |
| `Closures.OperationExample` | closure-assignment/src/main.rs:14-19 | the product closure applied to 10 and 5 gives 50 |
| `Closures.Tracker.constructor` | closure-assignment/src/main.rs:2 | the tracker starts at 0 |
| `Closures.Tracker.Update` | closure-assignment/src/main.rs:3-7 | each call raises the tracker by exactly 1 |
| `Closures.TrackChanges` | closure-assignment/src/main.rs:1-11 | after the two calls the tracker is 2 |

## Left out

- **Thread pool.** `ThreadPool`, `Worker`, `Message`, `Job` and the `Drop` shutdown (parallel-file-processor-project/src/main.rs:46-127) are threads, a shared channel and joins, which is concurrency. The model treats the results as a sequence in arrival order.
- **Cancellation listener.** The stdin thread and the `AtomicBool` (lines 187-197) are concurrency and I/O. The flag is an input: one `bool` per job and one observation per received result.
- **Directory scanning and early exit.** `fs::read_dir` (lines 199-212) is I/O, so jobs receive their file's outcome as a `FileAccess` value. The early return when no file is found (lines 214-218) is left out; with no results the aggregation gives all zeros.
- **Clock.** `Instant::now`/`elapsed` read the clock, so durations are input nanosecond counts. `Duration` addition is modelled on unbounded naturals.
- **Filenames.** `path.file_name().to_string_lossy()` is not modelled; filenames are input strings.
- **Error messages.** The texts of `e.to_string()` are input strings.
- **Printed output.** Printing, the progress bar and the final report are left out.
- **Integer widths.** `usize` and `u64` counters and sizes are unbounded naturals; overflow at those widths is not modelled.
- **File size.** `size_bytes` comes from the metadata and is not tied to the length of the text read.
- **Book file I/O.** `File::create`, `writeln!`, `File::open` and `BufReader` are I/O; the file is its sequence of lines. The failure `expect`s on create, write and open are not modelled.
- **Line reading.** The `unwrap` on each line read is not modelled.
- **Line breaks inside a book.** A title or author containing '\n' is not modelled at the file level: `writeln!` would then split that book's record over two lines of the file, whereas the model keeps each formatted record as one line. The round-trip lemmas that require single-token fields exclude it, since a token holds no whitespace.
- **Temperature conversion.** `fahrenheit_to_celsius`, `celsius_to_fahrenheit` and `assignment1` (homework_1/src/main.rs:1-28) are `f64` arithmetic.
- **Other crates.** `dog_api_example` is network I/O through libraries not shown. `attendance-verification` only prints enum payloads.
- **Overflow as preconditions.** `i32` overflow in the array sum, the range sum, the product closure and the counter is a precondition, not a modelled panic.
- `RustInt.RustRemZeroIffDivides`: proved only for the divisors the exercises use (2, 3, 5, 15), because the general statement needs nonlinear arithmetic.
- `Closures.Operation`: carries no contract of its own beyond the `i32` range of the product, because its only promise, the product itself, is its body; `OperationExample` states the example.
- `RustStr.Lines`: a final line ending in a lone '\r' keeps its '\r', as Rust does; only the number of lines reaches the statistics.
