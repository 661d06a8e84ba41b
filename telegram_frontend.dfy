/**
 * The upload filter of the Telegram front end: a document is taken only when
 * its name ends in `.txt` or `.csv`, in any letter case, and it declares a
 * non-empty MIME type of the `text/` family, in exactly that case.
 */
module TelegramFrontend {
  import opened Wrappers
  import opened Strings

  /** `_is_supported_text_file(file_name, mime)`; a missing MIME type is `None`. */
  predicate IsSupportedTextFile(fileName: string, mime: Option<string>)
  {
    var nameOk := EndsWith(Lower(fileName), ".txt") || EndsWith(Lower(fileName), ".csv");
    var mimeOk := mime.Some? && mime.value != "" && StartsWith(mime.value, "text/");
    nameOk && mimeOk
  }

  /**
   * The decision read off the raw name's last four characters: the name is
   * accepted exactly when, lower-cased, they spell `.txt` or `.csv`.
   */
  lemma SupportedByLastFour(fileName: string, mime: Option<string>)
    ensures IsSupportedTextFile(fileName, mime) <==>
      |fileName| >= 4 &&
      (Lower(fileName[|fileName| - 4..]) == ".txt" || Lower(fileName[|fileName| - 4..]) == ".csv") &&
      mime.Some? && |mime.value| >= 5 && mime.value[..5] == "text/"
  {
    if |fileName| >= 4 {
      assert Lower(fileName)[|fileName| - 4..] == Lower(fileName[|fileName| - 4..]);
    }
  }

  /** Only the letter case of the name is ignored: lower-casing it first changes nothing. */
  lemma NameCaseIgnored(fileName: string, mime: Option<string>)
    ensures IsSupportedTextFile(Lower(fileName), mime) == IsSupportedTextFile(fileName, mime)
  {
    LowerIdempotent(fileName);
  }

  /** An upper-case extension is accepted. */
  lemma UpperCaseExtensionAccepted()
    ensures IsSupportedTextFile("REPORT.CSV", Some("text/csv"))
  {
    assert Lower("REPORT.CSV")[6..] == ".csv";
  }

  /** The MIME type is compared in its own case: `TEXT/plain` is refused. */
  lemma MimeCaseMatters()
    ensures !IsSupportedTextFile("report.txt", Some("TEXT/plain"))
  {
    assert "TEXT/plain"[..5][0] == 'T';
  }

  /** Without a MIME type, or with an empty one, nothing is accepted. */
  lemma MissingMimeRejected(fileName: string)
    ensures !IsSupportedTextFile(fileName, None)
    ensures !IsSupportedTextFile(fileName, Some(""))
  {
  }

  /** A document without a name is handed over as `""` and refused. */
  lemma MissingNameRejected(mime: Option<string>)
    ensures !IsSupportedTextFile("", mime)
  {
  }
}
