/** Why the database refuses a statement, and the message MySQL reports for each reason; the
    message is what a DataIntegrityViolationException's root cause carries. */
module SqlErrors {
  import opened JavaLang

  /** The bounded columns whose lengths the model checks. */
  datatype Column = FirstNameColumn | LastNameColumn | EmailColumn | PhoneColumn | TitleColumn | BioColumn | CodeColumn

  /** The unique keys of the users table and of the verification tables. */
  datatype UniqueKey = UsersEmailKey | UserIdKey | CodeKey | UrlKey

  datatype SqlError =
    | DuplicateEntry(value: string, key: UniqueKey)
    | DataTooLong(column: Column)
    | ChildRowForeignKey
    | ParentRowForeignKey
    | OtherSqlError(message: string)

  function ColumnName(c: Column): string {
    match c
    case FirstNameColumn => "first_name"
    case LastNameColumn => "last_name"
    case EmailColumn => "email"
    case PhoneColumn => "phone"
    case TitleColumn => "title"
    case BioColumn => "bio"
    case CodeColumn => "code"
  }

  /** The key name MySQL reports; the users table declares its e-mail key by name. */
  function KeyName(k: UniqueKey): string {
    match k
    case UsersEmailKey => "users.uq_users_email"
    case UserIdKey => "user_id"
    case CodeKey => "code"
    case UrlKey => "url"
  }

  /** The message of the driver's exception, in MySQL's wording. */
  function SqlMessage(e: SqlError): string {
    match e
    case DuplicateEntry(value, key) => "Duplicate entry '" + value + "' for key '" + KeyName(key) + "'"
    case DataTooLong(column) => "Data too long for column '" + ColumnName(column) + "' at row 1"
    case ChildRowForeignKey => "Cannot add or update a child row: a foreign key constraint fails"
    case ParentRowForeignKey => "Cannot delete or update a parent row: a foreign key constraint fails"
    case OtherSqlError(message) => message
  }

  /** A unique-key violation's message mentions a duplicate entry, in any letter case. */
  lemma DuplicateEntryMessageSaysSo(value: string, key: UniqueKey)
    ensures Contains(ToLower(SqlMessage(DuplicateEntry(value, key))), "duplicate entry")
  {
    var m := SqlMessage(DuplicateEntry(value, key));
    var lower := ToLower(m);
    assert m[..15] == "Duplicate entry";
    assert lower[..15] == "duplicate entry";
    assert OccursAt(lower, "duplicate entry", 0);
  }
}
