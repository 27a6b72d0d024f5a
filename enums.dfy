/**
 * The string enumerations of the domain: each is a datatype, its stored
 * string, the parser behind `isValid…` and the display lookups.
 */
module ApplicationStatusEnum {
  import opened Outcomes

  datatype ApplicationStatus = Pending | Approved | Rejected | InReview

  /** The stored string of each status. */
  function Code(s: ApplicationStatus): string
  {
    match s
    case Pending => "pendiente"
    case Approved => "aprobado"
    case Rejected => "rechazado"
    case InReview => "en_revision"
  }

  /** The status a stored string names, if any. */
  function Parse(text: string): Option<ApplicationStatus>
  {
    if text == "pendiente" then Some(Pending)
    else if text == "aprobado" then Some(Approved)
    else if text == "rechazado" then Some(Rejected)
    else if text == "en_revision" then Some(InReview)
    else None
  }

  /** `isValidApplicationStatus` */
  predicate IsValid(text: string) { Parse(text).Some? }

  /** `getAllApplicationStatuses`, in declaration order. */
  const All: seq<ApplicationStatus> := [Pending, Approved, Rejected, InReview]

  predicate IsPendingApplication(s: ApplicationStatus) { s == Pending }

  predicate IsApprovedApplication(s: ApplicationStatus) { s == Approved }

  predicate IsRejectedApplication(s: ApplicationStatus) { s == Rejected }

  /** `canEditApplication`: a pending or rejected application may be edited. */
  predicate CanEdit(s: ApplicationStatus) { s == Pending || s == Rejected }

  function LabelEntry(s: ApplicationStatus): string
  {
    match s
    case Pending => "Pendiente"
    case Approved => "Aprobado"
    case Rejected => "Rechazado"
    case InReview => "En Revisión"
  }

  function ColorEntry(s: ApplicationStatus): string
  {
    match s
    case Pending => "yellow"
    case Approved => "green"
    case Rejected => "red"
    case InReview => "blue"
  }

  function IconEntry(s: ApplicationStatus): string
  {
    match s
    case Pending => "\U{23F3}"
    case Approved => "\U{2705}"
    case Rejected => "\U{274C}"
    case InReview => "\U{1F50D}"
  }

  function DescriptionEntry(s: ApplicationStatus): string
  {
    match s
    case Pending => "Tu solicitud está pendiente de revisión"
    case Approved => "Tu solicitud ha sido aprobada"
    case Rejected => "Tu solicitud ha sido rechazada"
    case InReview => "Tu solicitud está siendo revisada por un administrador"
  }

  /** `table[status] || fallback` */
  function OrElse(entry: string, fallback: string): string
  {
    if entry != "" then entry else fallback
  }

  function Label(s: ApplicationStatus): string { OrElse(LabelEntry(s), Code(s)) }

  function Color(s: ApplicationStatus): string { OrElse(ColorEntry(s), "gray") }

  function Icon(s: ApplicationStatus): string { OrElse(IconEntry(s), "\U{1F4CB}") }

  function Description(s: ApplicationStatus): string { OrElse(DescriptionEntry(s), "") }

  /** Parsing is the inverse of the stored string: it accepts exactly the four codes. */
  lemma ParseIsInverse(s: ApplicationStatus, text: string)
    ensures Parse(Code(s)) == Some(s)
    ensures Parse(text) == Some(s) <==> text == Code(s)
    ensures IsValid(text) <==> exists t :: t in All && Code(t) == text
  {
    if IsValid(text) {
      assert Parse(text).value in All;
    }
  }

  /** Every table has a non-empty entry for every status, so no lookup falls back. */
  lemma LookupsAreTotal(s: ApplicationStatus)
    ensures Label(s) == LabelEntry(s) && Label(s) != ""
    ensures Color(s) == ColorEntry(s) && Color(s) != ""
    ensures Icon(s) == IconEntry(s) && Icon(s) != ""
    ensures Description(s) == DescriptionEntry(s) && Description(s) != ""
  {
  }
}

module DocumentTypeEnum {
  import opened Outcomes

  datatype DocumentType =
    | ProofOfAddress
    | RestaurantMenu
    | OperatingLicense
    | HealthPermit
    | FoodHandlingCertificate
    | TaxId
    | Other

  function Code(t: DocumentType): string
  {
    match t
    case ProofOfAddress => "comprobante_domicilio"
    case RestaurantMenu => "menu_restaurante"
    case OperatingLicense => "licencia_funcionamiento"
    case HealthPermit => "permiso_sanidad"
    case FoodHandlingCertificate => "certificado_manipulacion"
    case TaxId => "rfc"
    case Other => "otro"
  }

  function Parse(text: string): Option<DocumentType>
  {
    if text == "comprobante_domicilio" then Some(ProofOfAddress)
    else if text == "menu_restaurante" then Some(RestaurantMenu)
    else if text == "licencia_funcionamiento" then Some(OperatingLicense)
    else if text == "permiso_sanidad" then Some(HealthPermit)
    else if text == "certificado_manipulacion" then Some(FoodHandlingCertificate)
    else if text == "rfc" then Some(TaxId)
    else if text == "otro" then Some(Other)
    else None
  }

  /** `isValidDocumentType` */
  predicate IsValid(text: string) { Parse(text).Some? }

  /** `getAllDocumentTypes` */
  const All: seq<DocumentType> :=
    [ProofOfAddress, RestaurantMenu, OperatingLicense, HealthPermit, FoodHandlingCertificate, TaxId, Other]

  /** `getRequiredDocumentTypes`: the documents registration requires. */
  const Required: seq<DocumentType> := [ProofOfAddress, OperatingLicense, HealthPermit, TaxId]

  /** `isRequiredDocument` */
  predicate IsRequired(t: DocumentType) { t in Required }

  function LabelEntry(t: DocumentType): string
  {
    match t
    case ProofOfAddress => "Comprobante de Domicilio"
    case RestaurantMenu => "Menú del Restaurante"
    case OperatingLicense => "Licencia de Funcionamiento"
    case HealthPermit => "Permiso de Sanidad"
    case FoodHandlingCertificate => "Certificado de Manipulación de Alimentos"
    case TaxId => "RFC"
    case Other => "Otro"
  }

  function DescriptionEntry(t: DocumentType): string
  {
    match t
    case ProofOfAddress => "Documento que acredita el domicilio del restaurante"
    case RestaurantMenu => "Menú oficial del restaurante"
    case OperatingLicense => "Licencia oficial para operar el negocio"
    case HealthPermit => "Permiso de sanidad e higiene"
    case FoodHandlingCertificate => "Certificado de manipulación higiénica de alimentos"
    case TaxId => "Registro Federal de Contribuyentes"
    case Other => "Otro tipo de documento"
  }

  function IconEntry(t: DocumentType): string
  {
    match t
    case ProofOfAddress => "\U{1F3E0}"
    case RestaurantMenu => "\U{1F4CB}"
    case OperatingLicense => "\U{1F4DC}"
    case HealthPermit => "\U{1F3E5}"
    case FoodHandlingCertificate => "\U{1F468}\U{200D}\U{1F373}"
    case TaxId => "\U{1F4BC}"
    case Other => "\U{1F4C4}"
  }

  function OrElse(entry: string, fallback: string): string
  {
    if entry != "" then entry else fallback
  }

  function Label(t: DocumentType): string { OrElse(LabelEntry(t), Code(t)) }

  function Description(t: DocumentType): string { OrElse(DescriptionEntry(t), "") }

  function Icon(t: DocumentType): string { OrElse(IconEntry(t), "\U{1F4C4}") }

  lemma ParseIsInverse(t: DocumentType, text: string)
    ensures Parse(Code(t)) == Some(t)
    ensures Parse(text) == Some(t) <==> text == Code(t)
    ensures IsValid(text) <==> exists u :: u in All && Code(u) == text
  {
    if IsValid(text) {
      assert Parse(text).value in All;
    }
  }

  /** The four required types are distinct members of the full list; the other three are optional. */
  lemma RequiredDocuments(t: DocumentType)
    ensures IsRequired(t) <==> t == ProofOfAddress || t == OperatingLicense || t == HealthPermit || t == TaxId
    ensures forall u :: u in Required ==> u in All
    ensures |All| == 7 && |Required| == 4 && t in All
    ensures forall i, j :: 0 <= i < j < |All| ==> All[i] != All[j]
  {
  }

  lemma LookupsAreTotal(t: DocumentType)
    ensures Label(t) == LabelEntry(t) && Label(t) != ""
    ensures Description(t) == DescriptionEntry(t) && Description(t) != ""
    ensures Icon(t) == IconEntry(t) && Icon(t) != ""
  {
  }
}

module MenuStatusEnum {
  import opened Outcomes

  datatype MenuStatus = Active | Inactive | Pending | Revision

  function Code(s: MenuStatus): string
  {
    match s
    case Active => "activo"
    case Inactive => "inactivo"
    case Pending => "pendiente"
    case Revision => "revision"
  }

  function Parse(text: string): Option<MenuStatus>
  {
    if text == "activo" then Some(Active)
    else if text == "inactivo" then Some(Inactive)
    else if text == "pendiente" then Some(Pending)
    else if text == "revision" then Some(Revision)
    else None
  }

  /** `isValidMenuStatus` */
  predicate IsValid(text: string) { Parse(text).Some? }

  /** `getAllMenuStatuses` */
  const All: seq<MenuStatus> := [Active, Inactive, Pending, Revision]

  /** `isActiveMenu` */
  predicate IsActiveMenu(s: MenuStatus) { s == Active }

  function LabelEntry(s: MenuStatus): string
  {
    match s
    case Active => "Activo"
    case Inactive => "Inactivo"
    case Pending => "Pendiente"
    case Revision => "En Revisión"
  }

  function ColorEntry(s: MenuStatus): string
  {
    match s
    case Active => "green"
    case Inactive => "gray"
    case Pending => "yellow"
    case Revision => "orange"
  }

  function OrElse(entry: string, fallback: string): string
  {
    if entry != "" then entry else fallback
  }

  function Label(s: MenuStatus): string { OrElse(LabelEntry(s), Code(s)) }

  function Color(s: MenuStatus): string { OrElse(ColorEntry(s), "gray") }

  lemma ParseIsInverse(s: MenuStatus, text: string)
    ensures Parse(Code(s)) == Some(s)
    ensures Parse(text) == Some(s) <==> text == Code(s)
    ensures IsValid(text) <==> exists t :: t in All && Code(t) == text
  {
    if IsValid(text) {
      assert Parse(text).value in All;
    }
  }

  lemma LookupsAreTotal(s: MenuStatus)
    ensures Label(s) == LabelEntry(s) && Label(s) != ""
    ensures Color(s) == ColorEntry(s) && Color(s) != ""
  {
  }
}

module UserTypeEnum {
  import opened Outcomes

  datatype UserType = Admin | RestaurantOwner | Client

  function Code(t: UserType): string
  {
    match t
    case Admin => "admin"
    case RestaurantOwner => "restaurantero"
    case Client => "cliente"
  }

  function Parse(text: string): Option<UserType>
  {
    if text == "admin" then Some(Admin)
    else if text == "restaurantero" then Some(RestaurantOwner)
    else if text == "cliente" then Some(Client)
    else None
  }

  /** `isValidUserType` */
  predicate IsValid(text: string) { Parse(text).Some? }

  /** `getAllUserTypes` */
  const All: seq<UserType> := [Admin, RestaurantOwner, Client]

  function LabelEntry(t: UserType): string
  {
    match t
    case Admin => "Administrador"
    case RestaurantOwner => "Restaurantero"
    case Client => "Cliente"
  }

  /** `getUserTypeLabel` */
  function Label(t: UserType): string
  {
    if LabelEntry(t) != "" then LabelEntry(t) else Code(t)
  }

  lemma ParseIsInverse(t: UserType, text: string)
    ensures Parse(Code(t)) == Some(t)
    ensures Parse(text) == Some(t) <==> text == Code(t)
    ensures IsValid(text) <==> exists u :: u in All && Code(u) == text
  {
    if IsValid(text) {
      assert Parse(text).value in All;
    }
  }

  lemma LabelIsTotal(t: UserType)
    ensures Label(t) == LabelEntry(t) && Label(t) != ""
  {
  }
}
