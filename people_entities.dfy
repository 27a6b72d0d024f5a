/**
 * The User entity: an account of one of the three user types, with a
 * normalised email and a password value.
 */
module UserEntity {
  import opened Outcomes
  import Text
  import EmailValue
  import PasswordValue
  import UT = UserTypeEnum

  /** The persisted fields of a user; the timestamps are not modelled. */
  datatype UserData = UserData(
    id: int,
    name: string,
    email: EmailValue.Email,
    password: PasswordValue.Password,
    userType: UT.UserType)

  const NameTooShort := "El nombre debe tener al menos 3 caracteres"

  /**
   * `User.create`: trims the name (with no length rule), then builds the
   * Email and an unhashed Password, either of which may throw.
   */
  function Create(name: string, email: string, password: string, userType: UT.UserType): (r: Result<UserData>)
    ensures r.Ok? <==> EmailValue.NewEmail(email).Ok? && PasswordValue.NewPassword(password, false).Ok?
    ensures r.Ok? ==> r.value == UserData(0, Text.Trim(name), EmailValue.NewEmail(email).value,
                                          PasswordValue.Password(password, false), userType)
    ensures EmailValue.NewEmail(email).Err? ==> r == Err(Failed(EmailValue.InvalidEmail))
  {
    match EmailValue.NewEmail(email)
    case Err(f) => Err(f)
    case Ok(e) =>
      match PasswordValue.NewPassword(password, false)
      case Err(f) => Err(f)
      case Ok(p) => Ok(UserData(0, Text.Trim(name), e, p, userType))
  }

  /** The email a user holds after `updateEmail`: the new normalised address, or the old one when it is invalid. */
  function EmailUpdated(current: EmailValue.Email, newEmail: string): (e: EmailValue.Email)
    ensures EmailValue.NewEmail(newEmail).Ok? ==> e == EmailValue.NewEmail(newEmail).value
    ensures EmailValue.NewEmail(newEmail).Err? ==> e == current
  {
    match EmailValue.NewEmail(newEmail)
    case Ok(v) => v
    case Err(_) => current
  }

  /** The entity object, whose update methods assign its fields in place. */
  class User {
    const id: int
    var name: string
    var email: EmailValue.Email
    var password: PasswordValue.Password
    var userType: UT.UserType

    /** Loads a stored user. */
    constructor (d: UserData)
      ensures Data() == d
    {
      id := d.id;
      name := d.name;
      email := d.email;
      password := d.password;
      userType := d.userType;
    }

    function Data(): UserData
      reads this
    {
      UserData(id, name, email, password, userType)
    }

    /** `updateName`: a short name fails and changes nothing; otherwise the trimmed name is stored. */
    method UpdateName(newName: string) returns (r: Result<()>)
      modifies this
      ensures r.Err? <==> Text.Utf16Length(Text.Trim(newName)) < 3
      ensures r.Err? ==> r.failure == Failed(NameTooShort) && Data() == old(Data())
      ensures r.Ok? ==> Data() == old(Data()).(name := Text.Trim(newName))
    {
      if Text.Utf16Length(Text.Trim(newName)) < 3 {
        return Err(Failed(NameTooShort));
      }
      name := Text.Trim(newName);
      return Ok(());
    }

    /** `updateEmail`: stores the normalised address, or fails and changes nothing. */
    method UpdateEmail(newEmail: string) returns (r: Result<()>)
      modifies this
      ensures r == (if EmailValue.NewEmail(newEmail).Ok? then Ok(()) else Err(Failed(EmailValue.InvalidEmail)))
      ensures Data() == old(Data()).(email := EmailUpdated(old(email), newEmail))
    {
      var e := EmailValue.NewEmail(newEmail);
      if e.Ok? {
        email := e.value;
        r := Ok(());
      } else {
        r := Err(e.failure);
      }
    }

    /** `updatePassword`: replaces the password value and nothing else. */
    method UpdatePassword(newPassword: PasswordValue.Password)
      modifies this
      ensures Data() == old(Data()).(password := newPassword)
    {
      password := newPassword;
    }

    predicate IsAdmin() reads this { userType == UT.Admin }

    predicate IsRestaurantOwner() reads this { userType == UT.RestaurantOwner }

    predicate IsClient() reads this { userType == UT.Client }
  }
}

/**
 * The Client record of a CLIENT user: an optional phone number of ten
 * digits once white space is removed.
 */
module ClientEntity {
  import opened Outcomes
  import Text

  datatype ClientData = ClientData(userId: int, phone: Option<string>)

  const InvalidUserId := "El ID de usuario es inválido"
  const InvalidPhone := "El teléfono debe tener 10 dígitos"

  /** A JavaScript string that is present and non-empty, so truthy. */
  predicate Supplied(s: Option<string>)
  {
    s.Some? && s.value != ""
  }

  /** `replace(/\s/g, '')`: the phone without white space. */
  function Stripped(phone: string): string
  {
    Text.Remove(phone, Text.IsSpace)
  }

  /** `/^[0-9]{10}$/`: exactly ten ASCII digits. */
  predicate TenDigits(s: string)
  {
    |s| == 10 && Text.AllDigits(s)
  }

  /**
   * `Client.create`: a positive user id, and a supplied phone must be ten
   * digits once white space is removed; the phone is stored as given.
   */
  function Create(userId: int, phone: Option<string>): (r: Result<ClientData>)
    ensures r.Ok? <==> userId > 0 && (Supplied(phone) ==> TenDigits(Stripped(phone.value)))
    ensures r.Ok? ==> r.value == ClientData(userId, phone)
    ensures userId <= 0 ==> r == Err(Failed(InvalidUserId))
    ensures userId > 0 && r.Err? ==> r.failure == Failed(InvalidPhone)
  {
    if userId <= 0 then Err(Failed(InvalidUserId))
    else if Supplied(phone) && !TenDigits(Stripped(phone.value)) then Err(Failed(InvalidPhone))
    else Ok(ClientData(userId, phone))
  }

  /** `hasPhone`: a non-empty phone is stored. */
  predicate HasPhone(c: ClientData)
  {
    Supplied(c.phone)
  }

  /** The entity object; `updatePhone` assigns its phone in place. */
  class Client {
    const userId: int
    var phone: Option<string>

    /** Loads a stored client. */
    constructor (d: ClientData)
      ensures Data() == d
    {
      userId := d.userId;
      phone := d.phone;
    }

    function Data(): ClientData
      reads this
    {
      ClientData(userId, phone)
    }

    /**
     * `updatePhone`: a supplied valid phone is stored without white space,
     * an empty or absent one clears the phone, an invalid one changes nothing.
     */
    method UpdatePhone(newPhone: Option<string>) returns (r: Result<()>)
      modifies this
      ensures r.Err? <==> Supplied(newPhone) && !TenDigits(Stripped(newPhone.value))
      ensures r.Err? ==> r.failure == Failed(InvalidPhone) && Data() == old(Data())
      ensures r.Ok? && Supplied(newPhone) ==> Data() == ClientData(userId, Some(Stripped(newPhone.value)))
      ensures !Supplied(newPhone) ==> Data() == ClientData(userId, None)
    {
      if Supplied(newPhone) {
        var cleaned := Stripped(newPhone.value);
        if !TenDigits(cleaned) {
          return Err(Failed(InvalidPhone));
        }
        phone := Some(cleaned);
      } else {
        phone := None;
      }
      return Ok(());
    }
  }

  /** Stripping white space again changes nothing, so a phone `updatePhone` stored is accepted as it is. */
  lemma StoredPhoneIsStripped(phone: string)
    requires TenDigits(Stripped(phone))
    ensures Stripped(Stripped(phone)) == Stripped(phone)
    ensures Create(1, Some(Stripped(phone))).Ok?
  {
    Text.RemoveNothing(Stripped(phone), Text.IsSpace);
  }

  /** `create` keeps the phone exactly as given, white space included. */
  lemma CreateKeepsRawPhone(userId: int, phone: string)
    requires Create(userId, Some(phone)).Ok?
    ensures HasPhone(Create(userId, Some(phone)).value) <==> phone != ""
    ensures Create(userId, Some(phone)).value.phone == Some(phone)
  {
  }
}

/**
 * The Survey entity: five optional answers, stored trimmed, of which the
 * non-empty ones count as answered.
 */
module SurveyEntity {
  import opened Outcomes
  import Text

  datatype SurveyData = SurveyData(
    id: int,
    clientId: int,
    restaurantId: int,
    question1: Option<string>,
    question2: Option<string>,
    question3: Option<string>,
    question4: Option<string>,
    question5: Option<string>)

  /** The five answers of a survey request. */
  datatype Answers = Answers(
    question1: Option<string>,
    question2: Option<string>,
    question3: Option<string>,
    question4: Option<string>,
    question5: Option<string>)

  const InvalidClientId := "El ID del cliente es inválido"
  const InvalidRestaurantId := "El ID del restaurante es inválido"

  /** `answer?.trim()`: an absent answer stays absent. */
  function TrimAnswer(a: Option<string>): (r: Option<string>)
    ensures r.Some? <==> a.Some?
  {
    if a.Some? then Some(Text.Trim(a.value)) else None
  }

  /** `Survey.create`: both ids must be positive; the answers are trimmed. */
  function Create(clientId: int, restaurantId: int, answers: Answers): (r: Result<SurveyData>)
    ensures r.Ok? <==> clientId > 0 && restaurantId > 0
    ensures r.Ok? ==> r.value == SurveyData(0, clientId, restaurantId,
                                            TrimAnswer(answers.question1), TrimAnswer(answers.question2),
                                            TrimAnswer(answers.question3), TrimAnswer(answers.question4),
                                            TrimAnswer(answers.question5))
    ensures clientId <= 0 ==> r == Err(Failed(InvalidClientId))
    ensures clientId > 0 && restaurantId <= 0 ==> r == Err(Failed(InvalidRestaurantId))
  {
    if clientId <= 0 then Err(Failed(InvalidClientId))
    else if restaurantId <= 0 then Err(Failed(InvalidRestaurantId))
    else Ok(SurveyData(0, clientId, restaurantId,
                       TrimAnswer(answers.question1), TrimAnswer(answers.question2),
                       TrimAnswer(answers.question3), TrimAnswer(answers.question4),
                       TrimAnswer(answers.question5)))
  }

  /** A present, non-empty answer, so truthy. */
  predicate Answered(a: Option<string>)
  {
    a.Some? && a.value != ""
  }

  function Point(a: Option<string>): nat
  {
    if Answered(a) then 1 else 0
  }

  /** `getAnsweredCount`: the number of truthy answers. */
  function AnsweredCount(s: SurveyData): (n: nat)
    ensures n <= 5
    ensures n == 0 <==> !Answered(s.question1) && !Answered(s.question2) && !Answered(s.question3)
                        && !Answered(s.question4) && !Answered(s.question5)
  {
    Point(s.question1) + Point(s.question2) + Point(s.question3) + Point(s.question4) + Point(s.question5)
  }

  /** `isComplete`: every answer is truthy. */
  predicate IsComplete(s: SurveyData)
  {
    Answered(s.question1) && Answered(s.question2) && Answered(s.question3)
    && Answered(s.question4) && Answered(s.question5)
  }

  /** `getCompletionPercentage`: the answered share of the five questions, in percent. */
  function CompletionPercentage(s: SurveyData): (p: nat)
    ensures p <= 100
    ensures p == 100 <==> IsComplete(s)
    ensures p % 20 == 0
  {
    AnsweredCount(s) * 20
  }

  /** A survey is complete exactly when all five questions are answered. */
  lemma CompleteIffFiveAnswers(s: SurveyData)
    ensures IsComplete(s) <==> AnsweredCount(s) == 5
  {
  }

  /** A blank answer is stored empty and does not count as answered. */
  lemma BlankAnswerDoesNotCount(blank: string)
    requires Text.AllSpace(blank)
    ensures !Answered(TrimAnswer(Some(blank)))
  {
    Text.TrimEmptyIffBlank(blank);
  }
}

/** The download record of an owner, with its origin and opinion codes. */
module DownloadEntity {
  import opened Outcomes

  /**
   * The persisted fields of a download. Origin and opinion are values of
   * enumerations that carry no rule, so they are kept as their codes.
   */
  datatype DownloadData = DownloadData(id: int, downloadCount: int, origin: string, opinion: string, ownerId: int)

  const NegativeCount := "El contador de descargas no puede ser negativo"
  const InvalidOwnerId := "El ID del propietario es inválido"

  /** `Download.create`: a non-negative count, then a positive owner. */
  function Create(downloadCount: int, origin: string, opinion: string, ownerId: int): (r: Result<DownloadData>)
    ensures r.Ok? <==> downloadCount >= 0 && ownerId > 0
    ensures r.Ok? ==> r.value == DownloadData(0, downloadCount, origin, opinion, ownerId)
    ensures downloadCount < 0 ==> r == Err(Failed(NegativeCount))
    ensures downloadCount >= 0 && ownerId <= 0 ==> r == Err(Failed(InvalidOwnerId))
  {
    if downloadCount < 0 then Err(Failed(NegativeCount))
    else if ownerId <= 0 then Err(Failed(InvalidOwnerId))
    else Ok(DownloadData(0, downloadCount, origin, opinion, ownerId))
  }

  /** The entity object, whose methods assign its fields in place. */
  class Download {
    const id: int
    var downloadCount: int
    var origin: string
    var opinion: string
    const ownerId: int

    /** Loads a stored download. */
    constructor (d: DownloadData)
      ensures Data() == d
    {
      id := d.id;
      downloadCount := d.downloadCount;
      origin := d.origin;
      opinion := d.opinion;
      ownerId := d.ownerId;
    }

    function Data(): DownloadData
      reads this
    {
      DownloadData(id, downloadCount, origin, opinion, ownerId)
    }

    /** `incrementCount`: exactly one more download. */
    method IncrementCount()
      modifies this
      ensures Data() == old(Data()).(downloadCount := old(downloadCount) + 1)
    {
      downloadCount := downloadCount + 1;
    }

    /** `updateOpinion`: only the opinion changes. */
    method UpdateOpinion(newOpinion: string)
      modifies this
      ensures Data() == old(Data()).(opinion := newOpinion)
    {
      opinion := newOpinion;
    }

    /** `updateOrigin`: only the origin changes. */
    method UpdateOrigin(newOrigin: string)
      modifies this
      ensures Data() == old(Data()).(origin := newOrigin)
    {
      origin := newOrigin;
    }
  }
}
