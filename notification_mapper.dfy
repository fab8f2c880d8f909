/**
 * Conversions between the transfer records and the entity. Enum values are
 * parsed case-insensitively (the text is upper-cased, then looked up by
 * constant name) and printed as the lower-cased constant name. Case mapping
 * is the ASCII one.
 */
module NotificationMapper {
  import opened Wrappers
  import opened Models

  /** Enum lookup by name failed; carries the upper-cased name that was looked up. */
  datatype MappingError = IllegalArgument(name: string)

  // ---------------------------------------------------------------------------
  // Case mapping
  // ---------------------------------------------------------------------------

  predicate IsAsciiLower(c: char) { 'a' <= c <= 'z' }

  predicate IsAsciiUpper(c: char) { 'A' <= c <= 'Z' }

  function UpperChar(c: char): char {
    if IsAsciiLower(c) then (c as int - 32) as char else c
  }

  function LowerChar(c: char): char {
    if IsAsciiUpper(c) then (c as int + 32) as char else c
  }

  function ToUpperCase(s: string): (r: string)
    ensures |r| == |s|
  {
    if s == [] then [] else [UpperChar(s[0])] + ToUpperCase(s[1..])
  }

  function ToLowerCase(s: string): (r: string)
    ensures |r| == |s|
  {
    if s == [] then [] else [LowerChar(s[0])] + ToLowerCase(s[1..])
  }

  /** Lower-casing is character by character. */
  lemma {:induction false} LowerCaseByChars(s: string, t: string)
    requires |s| == |t|
    requires forall i | 0 <= i < |s| :: LowerChar(s[i]) == t[i]
    ensures ToLowerCase(s) == t
  {
    if s != [] {
      LowerCaseByChars(s[1..], t[1..]);
    }
  }

  /** Text that upper-casing leaves alone: no ASCII lower-case letter. */
  predicate NoLowerCase(s: string) {
    forall i | 0 <= i < |s| :: !IsAsciiLower(s[i])
  }

  lemma {:induction false} UpperOfLower(s: string)
    ensures ToUpperCase(ToLowerCase(s)) == ToUpperCase(s)
  {
    if s != [] {
      UpperOfLower(s[1..]);
    }
  }

  lemma {:induction false} LowerOfUpper(s: string)
    ensures ToLowerCase(ToUpperCase(s)) == ToLowerCase(s)
  {
    if s != [] {
      LowerOfUpper(s[1..]);
    }
  }

  lemma {:induction false} UpperIdempotent(s: string)
    ensures ToUpperCase(ToUpperCase(s)) == ToUpperCase(s)
  {
    if s != [] {
      UpperIdempotent(s[1..]);
    }
  }

  lemma {:induction false} UpperFixesNoLower(s: string)
    requires NoLowerCase(s)
    ensures ToUpperCase(s) == s
  {
    if s != [] {
      assert !IsAsciiLower(s[0]);
      assert NoLowerCase(s[1..]) by {
        forall i | 0 <= i < |s[1..]| ensures !IsAsciiLower(s[1..][i]) {
          assert s[1..][i] == s[i + 1];
        }
      }
      UpperFixesNoLower(s[1..]);
    }
  }

  // ---------------------------------------------------------------------------
  // Enum names and lookup by name
  // ---------------------------------------------------------------------------

  /** The declared constant name of a type, which is also its text form. */
  function TypeName(t: NotificationType): string {
    match t
    case TOURNAMENT_STARTED => "TOURNAMENT_STARTED"
  }

  /** The declared constant name of a category, which is also its text form. */
  function CategoryName(c: NotificationCategory): string {
    match c
    case ALERT => "ALERT"
  }

  /** Exact-name lookup among the declared type constants. */
  function TypeValueOf(name: string): (r: Option<NotificationType>)
    ensures r.Some? ==> TypeName(r.value) == name
    ensures r.None? ==> forall t: NotificationType :: TypeName(t) != name
  {
    if name == "TOURNAMENT_STARTED" then Some(TOURNAMENT_STARTED) else None
  }

  /** Exact-name lookup among the declared category constants. */
  function CategoryValueOf(name: string): (r: Option<NotificationCategory>)
    ensures r.Some? ==> CategoryName(r.value) == name
    ensures r.None? ==> forall c: NotificationCategory :: CategoryName(c) != name
  {
    if name == "ALERT" then Some(ALERT) else None
  }

  lemma TypeNameNoLower(t: NotificationType)
    ensures NoLowerCase(TypeName(t))
  {
    var s := TypeName(t);
    forall i | 0 <= i < |s| ensures !IsAsciiLower(s[i]) {
    }
  }

  lemma CategoryNameNoLower(c: NotificationCategory)
    ensures NoLowerCase(CategoryName(c))
  {
    var s := CategoryName(c);
    forall i | 0 <= i < |s| ensures !IsAsciiLower(s[i]) {
    }
  }

  // ---------------------------------------------------------------------------
  // The four named conversions
  // ---------------------------------------------------------------------------

  /** Upper-case the text, then look the constant up by name; an unknown name is an IllegalArgument. */
  function StringToNotificationType(s: string): (r: Result<NotificationType, MappingError>)
    ensures r.Success? ==> TypeName(r.value) == ToUpperCase(s)
    ensures r.Failure? ==>
      r.error == IllegalArgument(ToUpperCase(s)) && forall t: NotificationType :: TypeName(t) != ToUpperCase(s)
  {
    match TypeValueOf(ToUpperCase(s))
    case Some(t) => Success(t)
    case None => Failure(IllegalArgument(ToUpperCase(s)))
  }

  /** The lower-cased constant name: lower-case text whose upper-cased form is the name. */
  function NotificationTypeToString(t: NotificationType): (r: string)
    ensures ToUpperCase(r) == TypeName(t)
    ensures ToLowerCase(r) == r
  {
    UpperOfLower(TypeName(t));
    TypeNameNoLower(t);
    UpperFixesNoLower(TypeName(t));
    LowerOfUpper(TypeName(t));
    LowerOfUpper(ToLowerCase(TypeName(t)));
    ToLowerCase(TypeName(t))
  }

  /** Upper-case the text, then look the constant up by name; an unknown name is an IllegalArgument. */
  function StringToNotificationCategory(s: string): (r: Result<NotificationCategory, MappingError>)
    ensures r.Success? ==> CategoryName(r.value) == ToUpperCase(s)
    ensures r.Failure? ==>
      r.error == IllegalArgument(ToUpperCase(s)) && forall c: NotificationCategory :: CategoryName(c) != ToUpperCase(s)
  {
    match CategoryValueOf(ToUpperCase(s))
    case Some(c) => Success(c)
    case None => Failure(IllegalArgument(ToUpperCase(s)))
  }

  /** The lower-cased constant name: lower-case text whose upper-cased form is the name. */
  function NotificationCategoryToString(c: NotificationCategory): (r: string)
    ensures ToUpperCase(r) == CategoryName(c)
    ensures ToLowerCase(r) == r
  {
    UpperOfLower(CategoryName(c));
    CategoryNameNoLower(c);
    UpperFixesNoLower(CategoryName(c));
    LowerOfUpper(CategoryName(c));
    LowerOfUpper(ToLowerCase(CategoryName(c)));
    ToLowerCase(CategoryName(c))
  }

  // ---------------------------------------------------------------------------
  // Properties of the conversions
  // ---------------------------------------------------------------------------

  lemma TypeRoundTrip(t: NotificationType)
    ensures StringToNotificationType(NotificationTypeToString(t)) == Success(t)
  {
  }

  lemma CategoryRoundTrip(c: NotificationCategory)
    ensures StringToNotificationCategory(NotificationCategoryToString(c)) == Success(c)
  {
  }

  /** Parsing then printing gives back the input in lower case. */
  lemma TypeParsePrint(s: string)
    ensures StringToNotificationType(s).Success? ==>
      NotificationTypeToString(StringToNotificationType(s).value) == ToLowerCase(s)
  {
    LowerOfUpper(s);
  }

  /** Parsing then printing gives back the input in lower case. */
  lemma CategoryParsePrint(s: string)
    ensures StringToNotificationCategory(s).Success? ==>
      NotificationCategoryToString(StringToNotificationCategory(s).value) == ToLowerCase(s)
  {
    LowerOfUpper(s);
  }

  /** Two texts that agree up to letter case parse to the same outcome; in particular the
      input may be given in upper or lower case. */
  lemma TypeParseIgnoresCase(s: string, s': string)
    requires ToUpperCase(s) == ToUpperCase(s')
    ensures StringToNotificationType(s) == StringToNotificationType(s')
    ensures StringToNotificationType(ToLowerCase(s)) == StringToNotificationType(s)
    ensures StringToNotificationType(ToUpperCase(s)) == StringToNotificationType(s)
  {
    UpperOfLower(s);
    UpperIdempotent(s);
  }

  /** Two texts that agree up to letter case parse to the same outcome. */
  lemma CategoryParseIgnoresCase(s: string, s': string)
    requires ToUpperCase(s) == ToUpperCase(s')
    ensures StringToNotificationCategory(s) == StringToNotificationCategory(s')
    ensures StringToNotificationCategory(ToLowerCase(s)) == StringToNotificationCategory(s)
    ensures StringToNotificationCategory(ToUpperCase(s)) == StringToNotificationCategory(s)
  {
    UpperOfLower(s);
    UpperIdempotent(s);
  }

  /** Parsing succeeds exactly on the texts equal to some printed value up to case. */
  lemma TypeParseSucceedsIff(s: string, t: NotificationType)
    ensures StringToNotificationType(s) == Success(t) <==>
      ToUpperCase(s) == ToUpperCase(NotificationTypeToString(t))
  {
  }

  lemma CategoryParseSucceedsIff(s: string, c: NotificationCategory)
    ensures StringToNotificationCategory(s) == Success(c) <==>
      ToUpperCase(s) == ToUpperCase(NotificationCategoryToString(c))
  {
  }

  /** The category constant prints as "alert". */
  lemma AlertPrintsLowerCase()
    ensures NotificationCategoryToString(ALERT) == "alert"
  {
  }

  /** The type constant prints as "tournament_started". */
  lemma TournamentStartedPrintsLowerCase()
    ensures NotificationTypeToString(TOURNAMENT_STARTED) == "tournament_started"
  {
    LowerCaseByChars(TypeName(TOURNAMENT_STARTED), "tournament_started");
  }

  /** An unknown name, as in a request naming type "INVALID_TYPE", is refused. */
  lemma UnknownTypeRefused()
    ensures StringToNotificationType("INVALID_TYPE").Failure?
  {
  }

  // ---------------------------------------------------------------------------
  // Record mappings
  // ---------------------------------------------------------------------------

  /** Field-by-field copy; type and category are parsed, and either failing refuses the request. */
  function IncomingNotificationDTOToNotification(dto: IncomingNotificationDTO): (r: Result<Notification, MappingError>)
    ensures r.Success? <==>
      StringToNotificationType(dto.notificationType).Success? && StringToNotificationCategory(dto.category).Success?
    ensures r.Failure? ==> r.error == if StringToNotificationType(dto.notificationType).Failure?
                                     then IllegalArgument(ToUpperCase(dto.notificationType))
                                     else IllegalArgument(ToUpperCase(dto.category))
    ensures r.Success? ==>
      && r.value.id == None
      && TypeName(r.value.notificationType) == ToUpperCase(dto.notificationType)
      && CategoryName(r.value.category) == ToUpperCase(dto.category)
      && r.value.tournamentId == dto.tournamentId
      && r.value.tournamentName == dto.tournamentName
      && r.value.message == dto.message
      && r.value.createdAt == dto.createdAt
      && r.value.isRead == dto.isRead
      && r.value.recipients == dto.recipients
  {
    match StringToNotificationType(dto.notificationType)
    case Failure(e) => Failure(e)
    case Success(t) =>
      match StringToNotificationCategory(dto.category)
      case Failure(e) => Failure(e)
      case Success(c) =>
        Success(Notification(None, dto.tournamentId, dto.tournamentName, dto.message, t, c,
                             dto.createdAt, dto.isRead, dto.recipients))
  }

  /** Field-by-field copy; type and category are printed. */
  function NotificationToOutgoingNotificationDTO(n: Notification): (r: OutgoingNotificationDTO)
    ensures r.id == n.id && r.tournamentId == n.tournamentId && r.tournamentName == n.tournamentName
    ensures r.message == n.message && r.createdAt == n.createdAt && r.isRead == n.isRead
    ensures r.notificationType == NotificationTypeToString(n.notificationType)
    ensures r.category == NotificationCategoryToString(n.category)
    ensures StringToNotificationType(r.notificationType) == Success(n.notificationType)
    ensures StringToNotificationCategory(r.category) == Success(n.category)
  {
    TypeRoundTrip(n.notificationType);
    CategoryRoundTrip(n.category);
    OutgoingNotificationDTO(n.id, n.tournamentId, n.tournamentName, n.message,
                            NotificationTypeToString(n.notificationType),
                            NotificationCategoryToString(n.category),
                            n.createdAt, n.isRead)
  }

  /** Element-wise mapping of a list of entities. */
  function NotificationsToOutgoingNotificationDTOs(ns: seq<Notification>): (r: seq<OutgoingNotificationDTO>)
    ensures |r| == |ns|
    ensures forall i | 0 <= i < |ns| :: r[i] == NotificationToOutgoingNotificationDTO(ns[i])
  {
    if ns == [] then []
    else [NotificationToOutgoingNotificationDTO(ns[0])] + NotificationsToOutgoingNotificationDTOs(ns[1..])
  }

  /** An outgoing record, sent back in as a request for the same recipients, maps to the
      same entity except for the store-assigned id. */
  lemma OutgoingIncomingRoundTrip(n: Notification)
    ensures
      var o := NotificationToOutgoingNotificationDTO(n);
      IncomingNotificationDTOToNotification(
        IncomingNotificationDTO(o.tournamentId, o.tournamentName, o.message, o.notificationType,
                                o.category, o.createdAt, o.isRead, n.recipients))
      == Success(n.(id := None))
  {
    TypeRoundTrip(n.notificationType);
    CategoryRoundTrip(n.category);
  }
}
