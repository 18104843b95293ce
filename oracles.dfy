/**
 * What the scripts receive from code outside them: the documents folder as
 * the readers see it, and the text-generation call.
 */
module Oracles {
  import opened Text

  /** What an external reader produced, or the message of the exception it raised. */
  datatype Reading<T> = Read(value: T) | Raised(message: string)

  /**
   * One entry of a documents folder: its name, what `PdfReader(path).pages`
   * yields for it (each page's `extract_text()`, None where that returns None)
   * and what `open(path).read()` yields for it. Which of the two a script
   * consults depends on the name's extension.
   */
  datatype DocFile = DocFile(name: string, pdf: Reading<seq<Option<string>>>, text: Reading<string>)

  /** `ollama.generate(...)['response']`, or `str(e)` of the exception it raised. */
  datatype GenResult = Generated(response: string) | GenFailed(error: string)

  predicate IsPdfName(name: string) { EndsWith(name, ".pdf") }

  /** `name.endswith((".txt", ".md"))` */
  predicate IsPlainTextName(name: string) { EndsWith(name, ".txt") || EndsWith(name, ".md") }
}
