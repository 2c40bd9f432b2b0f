/** Backup and restore (app.js `exportBackup`, `createAutoBackup`,
    `processBackupData`): a snapshot of entries and categories, and its
    wholesale import. Accounts are not part of a backup. */
module Backup {
  import opened Wrappers
  import opened Records

  const BackupVersion: string := "1.0.0"
  const AppName: string := "Daybook Desktop"

  /** The object written to a backup file, before JSON serialisation. */
  datatype Snapshot = Snapshot(
    entries: seq<Entry>,
    categories: Categories,
    version: string,
    exportDate: string,
    appName: string,
    autoBackup: bool)

  /** `exportBackup` (manual, `autoBackup` false) and `createAutoBackup`
      (`autoBackup` true) take the same snapshot of the book; `exportDate` is
      the ISO timestamp of the moment. */
  function TakeSnapshot(book: Book, exportDate: string, auto: bool): (s: Snapshot)
    ensures s.entries == book.entries && s.categories == book.categories
    ensures s.version == "1.0.0" && s.appName == "Daybook Desktop"
    ensures s.exportDate == exportDate && s.autoBackup == auto
  {
    Snapshot(book.entries, book.categories, BackupVersion, exportDate, AppName, auto)
  }

  /** The part of an ISO timestamp before its first 'T'. */
  function DatePart(iso: string): (d: string)
    ensures d <= iso && 'T' !in d
    ensures |d| < |iso| ==> iso[|d|] == 'T'
  {
    if |iso| == 0 || iso[0] == 'T' then "" else [iso[0]] + DatePart(iso[1..])
  }

  /** The suggested file name `daybook_backup_<date>.json`. */
  function BackupFileName(exportDate: string): (name: string)
    ensures |name| >= 20
    ensures name[..15] == "daybook_backup_" && name[|name| - 5..] == ".json"
    ensures name[15..|name| - 5] == DatePart(exportDate)
  {
    "daybook_backup_" + DatePart(exportDate) + ".json"
  }

  /** The parsed contents of a file offered for import: either field may be
      absent. */
  datatype BackupData = BackupData(entries: Option<seq<Entry>>, categories: Option<Categories>)

  /** What a snapshot looks like once written and read back. */
  function AsData(s: Snapshot): BackupData {
    BackupData(Some(s.entries), Some(s.categories))
  }

  /** `processBackupData`: a file missing entries or categories is rejected;
      otherwise, once confirmed, both replace the book's wholesale while the
      accounts stay as they were; unconfirmed, nothing changes. */
  function ImportBackup(book: Book, data: BackupData, confirmed: bool): (r: Result<Book, Alert>)
    ensures r.Err? <==> data.entries.None? || data.categories.None?
    ensures r.Err? ==> r.error == InvalidBackup
    ensures r.Ok? && !confirmed ==> r.value == book
    ensures r.Ok? && confirmed ==>
      r.value == Book(data.entries.value, data.categories.value, book.accounts)
  {
    if data.entries.None? || data.categories.None? then Err(InvalidBackup)
    else if confirmed then Ok(book.(entries := data.entries.value, categories := data.categories.value))
    else Ok(book)
  }

  /** Restoring a backup of the book gives back the book, whenever it was
      taken and whether it was automatic or not. */
  lemma RestoreUndoesBackup(book: Book, exportDate: string, auto: bool)
    ensures ImportBackup(book, AsData(TakeSnapshot(book, exportDate, auto)), true) == Ok(book)
  {
  }

  /** Restoring a backup of one book into another brings back the first book's
      entries and categories but keeps the second book's accounts. */
  lemma RestoreKeepsCurrentAccounts(saved: Book, current: Book, exportDate: string)
    ensures var r := ImportBackup(current, AsData(TakeSnapshot(saved, exportDate, false)), true);
      r.Ok? && r.value.entries == saved.entries && r.value.categories == saved.categories
      && r.value.accounts == current.accounts
  {
  }
}
