/** The records that flow through the weekly run. In the source these are
    Python dictionaries; here each key the core reads is a field. */
module Records {

  /** A newsletter as the mailbox step returns it (one unread message). */
  datatype Newsletter = Newsletter(
    id: string,
    subject: string,
    sender: string,
    date: string,
    htmlBody: string,
    snippet: string)

  /** A newsletter after it was archived: the fetched record extended with
      the archive's link and file id (`drive_url`, `drive_id`). */
  datatype SavedNewsletter = SavedNewsletter(newsletter: Newsletter, driveUrl: string, driveId: string)

  /** An active video from the curated list. `kind` is the `type` column. */
  datatype Video = Video(title: string, url: string, category: string, kind: string, description: string)
}
