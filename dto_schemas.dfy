/**
 * The record classes of the client (the DTO directory): their names, the
 * declared properties of each, in declaration order, and the declared type
 * of each property. Every property is declared nullable with default null,
 * so a type here stands for `?T`.
 */
module DtoSchemas {
  import opened Wrappers

  datatype DtoClass =
    | PartyDto
    | InvoiceLineDto
    | TaxSubtotalDto
    | InvoiceDto
    | MiniInvoiceDto
    | MiniCompanyDto
    | PurchaseInvoiceDto
    | PurchaseInvoiceOverviewDto
    | PurchaseInvoiceStatusChangeDto
    | SalesInvoiceStatusChangeDto
    | CompanyAccountOnEfakturaDto
    | ValueAddedTaxExemptionReasonDto
    | ChangeStatusInvoiceResponseDto
    | EfakturaVersionDto
    | PurchaseInvoicesDto
    | SimplePurchaseInvoiceDto
    | AcceptRejectResponseDto

  /** The declared type of a property: `?string`, `?int`, `?float`, `?bool`, `?array` or `?C` for a record class C. */
  datatype FieldType = TString | TInt | TFloat | TBool | TArray | TObject(cls: DtoClass)

  /** A record class as the constructor and `toArray` use it: its properties in order and their types. */
  datatype Schema = Schema(cls: DtoClass, names: seq<string>, typeOf: string -> Option<FieldType>)

  function SchemaOf(cls: DtoClass): (s: Schema)
    ensures s.cls == cls && s.names == Properties(cls)
    ensures forall n :: s.typeOf(n) == PropertyType(cls, n)
  {
    Schema(cls, Properties(cls), n => PropertyType(cls, n))
  }

  /** The declared properties of `cls`, in declaration order (the order `get_object_vars` reports them in). */
  function Properties(cls: DtoClass): seq<string>
  {
    match cls
    case PartyDto =>
      ["companyId", "name", "pib", "mb", "jbkjs", "streetName", "buildingNumber",
       "cityName", "postalZone", "countryCode", "countryName", "email", "telephone",
       "bankAccount", "contactName", "contactEmail", "contactTelephone"]
    case InvoiceLineDto =>
      ["lineId", "ordinalNumber", "itemName", "itemDescription",
       "sellersItemIdentification", "buyersItemIdentification", "invoicedQuantity",
       "unitCode", "unitCodeName", "lineExtensionAmount", "priceAmount", "baseQuantity",
       "allowanceChargeAmount", "allowanceChargeReason", "allowanceChargeIndicator",
       "taxPercent", "taxCategoryId", "taxExemptionReasonCode", "taxExemptionReason",
       "classifiedTaxCategoryId", "classifiedTaxCategoryPercent", "note",
       "orderLineReferenceId", "documentReferenceId"]
    case TaxSubtotalDto =>
      ["taxableAmount", "taxAmount", "percent", "taxCategoryId", "taxCategoryName",
       "taxExemptionReasonCode", "taxExemptionReason"]
    case InvoiceDto =>
      ["invoiceId", "invoiceNumber", "status", "cirInvoiceId", "cirStatus", "message",
       "success"]
    case MiniInvoiceDto =>
      ["salesInvoiceId", "purchaseInvoiceId", "invoiceNumber", "status", "cirInvoiceId",
       "cirStatus", "requestId", "message", "success"]
    case MiniCompanyDto =>
      ["companyId", "name", "pib", "mb", "jbkjs", "address", "city", "zip", "countryCode",
       "email", "phone", "registrationStatus"]
    case PurchaseInvoiceDto =>
      ["purchaseInvoiceId", "invoiceNumber", "status", "cirInvoiceId", "cirStatus",
       "assignerPartyJBKJS", "assignationContractNumber", "success", "message"]
    case PurchaseInvoiceOverviewDto =>
      ["purchaseInvoiceId", "invoiceNumber", "invoiceTypeCode", "issueDate", "dueDate",
       "status", "cirInvoiceId", "cirStatus", "supplierPib", "supplierName",
       "taxExclusiveAmount", "taxAmount", "payableAmount", "currencyCode",
       "deliveredDate", "seenDate"]
    case PurchaseInvoiceStatusChangeDto =>
      ["purchaseInvoiceId", "invoiceNumber", "status", "cirInvoiceId", "cirStatus",
       "statusChangeDate", "supplierPib", "supplierName", "totalAmount"]
    case SalesInvoiceStatusChangeDto =>
      ["salesInvoiceId", "invoiceNumber", "status", "cirInvoiceId", "cirStatus",
       "statusChangeDate", "buyerPib", "buyerName", "totalAmount"]
    case CompanyAccountOnEfakturaDto =>
      ["hasAccount", "isActive", "companyId", "pib", "mb", "jbkjs", "name"]
    case ValueAddedTaxExemptionReasonDto =>
      ["code", "description", "taxCategory"]
    case ChangeStatusInvoiceResponseDto =>
      ["invoiceNumber", "status"]
    case EfakturaVersionDto =>
      ["version", "releaseDate"]
    case PurchaseInvoicesDto =>
      ["invoiceIds"]
    case SimplePurchaseInvoiceDto =>
      ["purchaseInvoiceId", "invoiceNumber", "invoiceTypeCode", "invoiceTypeName",
       "issueDate", "dueDate", "taxPointDate", "currencyCode", "documentCurrencyCode",
       "currencyExchangeRate", "status", "cirInvoiceId", "cirStatus", "note",
       "paymentMeansCode", "paymentId", "paymentAccountId", "paymentAccountName",
       "contractDocumentReference", "orderReference", "originatorDocumentReference",
       "purchaseOrderReference", "salesOrderReference", "despatchDocumentReference",
       "receiptDocumentReference", "additionalDocumentReference",
       "billingReferenceInvoiceId", "billingReferenceIssueDate",
       "accountingSupplierParty", "accountingCustomerParty", "deliveryParty",
       "payeeParty", "taxExclusiveAmount", "taxInclusiveAmount", "allowanceTotalAmount",
       "chargeTotalAmount", "prepaidAmount", "payableRoundingAmount", "payableAmount",
       "taxSubtotals", "invoiceLines", "creationDate", "lastModifiedDate",
       "deliveredDate", "seenDate", "approvedDate", "rejectedDate", "cancelledDate",
       "cancelComments", "rejectComments", "approveComments"]
    case AcceptRejectResponseDto =>
      ["invoice", "success", "message", "httpStatus"]
  }

  /** The declared type of property `name` of `cls`; None when `cls` declares no such property. */
  function PropertyType(cls: DtoClass, name: string): Option<FieldType>
  {
    match cls
    case PartyDto => PartyDtoType(name)
    case InvoiceLineDto => InvoiceLineDtoType(name)
    case TaxSubtotalDto => TaxSubtotalDtoType(name)
    case InvoiceDto => InvoiceDtoType(name)
    case MiniInvoiceDto => MiniInvoiceDtoType(name)
    case MiniCompanyDto => MiniCompanyDtoType(name)
    case PurchaseInvoiceDto => PurchaseInvoiceDtoType(name)
    case PurchaseInvoiceOverviewDto => PurchaseInvoiceOverviewDtoType(name)
    case PurchaseInvoiceStatusChangeDto => PurchaseInvoiceStatusChangeDtoType(name)
    case SalesInvoiceStatusChangeDto => SalesInvoiceStatusChangeDtoType(name)
    case CompanyAccountOnEfakturaDto => CompanyAccountOnEfakturaDtoType(name)
    case ValueAddedTaxExemptionReasonDto => ValueAddedTaxExemptionReasonDtoType(name)
    case ChangeStatusInvoiceResponseDto => ChangeStatusInvoiceResponseDtoType(name)
    case EfakturaVersionDto => EfakturaVersionDtoType(name)
    case PurchaseInvoicesDto => PurchaseInvoicesDtoType(name)
    case SimplePurchaseInvoiceDto => SimplePurchaseInvoiceDtoType(name)
    case AcceptRejectResponseDto => AcceptRejectResponseDtoType(name)
  }

  function PartyDtoType(name: string): Option<FieldType>
  {
    match name
    case "companyId" => Some(TString)
    case "name" => Some(TString)
    case "pib" => Some(TString)
    case "mb" => Some(TString)
    case "jbkjs" => Some(TString)
    case "streetName" => Some(TString)
    case "buildingNumber" => Some(TString)
    case "cityName" => Some(TString)
    case "postalZone" => Some(TString)
    case "countryCode" => Some(TString)
    case "countryName" => Some(TString)
    case "email" => Some(TString)
    case "telephone" => Some(TString)
    case "bankAccount" => Some(TString)
    case "contactName" => Some(TString)
    case "contactEmail" => Some(TString)
    case "contactTelephone" => Some(TString)
    case _ => None
  }

  function InvoiceLineDtoType(name: string): Option<FieldType>
  {
    match name
    case "lineId" => Some(TInt)
    case "ordinalNumber" => Some(TInt)
    case "itemName" => Some(TString)
    case "itemDescription" => Some(TString)
    case "sellersItemIdentification" => Some(TString)
    case "buyersItemIdentification" => Some(TString)
    case "invoicedQuantity" => Some(TFloat)
    case "unitCode" => Some(TString)
    case "unitCodeName" => Some(TString)
    case "lineExtensionAmount" => Some(TFloat)
    case "priceAmount" => Some(TFloat)
    case "baseQuantity" => Some(TFloat)
    case "allowanceChargeAmount" => Some(TFloat)
    case "allowanceChargeReason" => Some(TString)
    case "allowanceChargeIndicator" => Some(TBool)
    case "taxPercent" => Some(TFloat)
    case "taxCategoryId" => Some(TString)
    case "taxExemptionReasonCode" => Some(TString)
    case "taxExemptionReason" => Some(TString)
    case "classifiedTaxCategoryId" => Some(TString)
    case "classifiedTaxCategoryPercent" => Some(TString)
    case "note" => Some(TString)
    case "orderLineReferenceId" => Some(TString)
    case "documentReferenceId" => Some(TString)
    case _ => None
  }

  function TaxSubtotalDtoType(name: string): Option<FieldType>
  {
    match name
    case "taxableAmount" => Some(TFloat)
    case "taxAmount" => Some(TFloat)
    case "percent" => Some(TFloat)
    case "taxCategoryId" => Some(TString)
    case "taxCategoryName" => Some(TString)
    case "taxExemptionReasonCode" => Some(TString)
    case "taxExemptionReason" => Some(TString)
    case _ => None
  }

  function InvoiceDtoType(name: string): Option<FieldType>
  {
    match name
    case "invoiceId" => Some(TInt)
    case "invoiceNumber" => Some(TString)
    case "status" => Some(TString)
    case "cirInvoiceId" => Some(TString)
    case "cirStatus" => Some(TString)
    case "message" => Some(TString)
    case "success" => Some(TBool)
    case _ => None
  }

  function MiniInvoiceDtoType(name: string): Option<FieldType>
  {
    match name
    case "salesInvoiceId" => Some(TInt)
    case "purchaseInvoiceId" => Some(TInt)
    case "invoiceNumber" => Some(TString)
    case "status" => Some(TString)
    case "cirInvoiceId" => Some(TString)
    case "cirStatus" => Some(TString)
    case "requestId" => Some(TString)
    case "message" => Some(TString)
    case "success" => Some(TBool)
    case _ => None
  }

  function MiniCompanyDtoType(name: string): Option<FieldType>
  {
    match name
    case "companyId" => Some(TString)
    case "name" => Some(TString)
    case "pib" => Some(TString)
    case "mb" => Some(TString)
    case "jbkjs" => Some(TString)
    case "address" => Some(TString)
    case "city" => Some(TString)
    case "zip" => Some(TString)
    case "countryCode" => Some(TString)
    case "email" => Some(TString)
    case "phone" => Some(TString)
    case "registrationStatus" => Some(TString)
    case _ => None
  }

  function PurchaseInvoiceDtoType(name: string): Option<FieldType>
  {
    match name
    case "purchaseInvoiceId" => Some(TInt)
    case "invoiceNumber" => Some(TString)
    case "status" => Some(TString)
    case "cirInvoiceId" => Some(TString)
    case "cirStatus" => Some(TString)
    case "assignerPartyJBKJS" => Some(TString)
    case "assignationContractNumber" => Some(TString)
    case "success" => Some(TBool)
    case "message" => Some(TString)
    case _ => None
  }

  function PurchaseInvoiceOverviewDtoType(name: string): Option<FieldType>
  {
    match name
    case "purchaseInvoiceId" => Some(TInt)
    case "invoiceNumber" => Some(TString)
    case "invoiceTypeCode" => Some(TString)
    case "issueDate" => Some(TString)
    case "dueDate" => Some(TString)
    case "status" => Some(TString)
    case "cirInvoiceId" => Some(TString)
    case "cirStatus" => Some(TString)
    case "supplierPib" => Some(TString)
    case "supplierName" => Some(TString)
    case "taxExclusiveAmount" => Some(TFloat)
    case "taxAmount" => Some(TFloat)
    case "payableAmount" => Some(TFloat)
    case "currencyCode" => Some(TString)
    case "deliveredDate" => Some(TString)
    case "seenDate" => Some(TString)
    case _ => None
  }

  function PurchaseInvoiceStatusChangeDtoType(name: string): Option<FieldType>
  {
    match name
    case "purchaseInvoiceId" => Some(TInt)
    case "invoiceNumber" => Some(TString)
    case "status" => Some(TString)
    case "cirInvoiceId" => Some(TString)
    case "cirStatus" => Some(TString)
    case "statusChangeDate" => Some(TString)
    case "supplierPib" => Some(TString)
    case "supplierName" => Some(TString)
    case "totalAmount" => Some(TFloat)
    case _ => None
  }

  function SalesInvoiceStatusChangeDtoType(name: string): Option<FieldType>
  {
    match name
    case "salesInvoiceId" => Some(TInt)
    case "invoiceNumber" => Some(TString)
    case "status" => Some(TString)
    case "cirInvoiceId" => Some(TString)
    case "cirStatus" => Some(TString)
    case "statusChangeDate" => Some(TString)
    case "buyerPib" => Some(TString)
    case "buyerName" => Some(TString)
    case "totalAmount" => Some(TFloat)
    case _ => None
  }

  function CompanyAccountOnEfakturaDtoType(name: string): Option<FieldType>
  {
    match name
    case "hasAccount" => Some(TBool)
    case "isActive" => Some(TBool)
    case "companyId" => Some(TString)
    case "pib" => Some(TString)
    case "mb" => Some(TString)
    case "jbkjs" => Some(TString)
    case "name" => Some(TString)
    case _ => None
  }

  function ValueAddedTaxExemptionReasonDtoType(name: string): Option<FieldType>
  {
    match name
    case "code" => Some(TString)
    case "description" => Some(TString)
    case "taxCategory" => Some(TString)
    case _ => None
  }

  function ChangeStatusInvoiceResponseDtoType(name: string): Option<FieldType>
  {
    match name
    case "invoiceNumber" => Some(TString)
    case "status" => Some(TString)
    case _ => None
  }

  function EfakturaVersionDtoType(name: string): Option<FieldType>
  {
    match name
    case "version" => Some(TString)
    case "releaseDate" => Some(TString)
    case _ => None
  }

  function PurchaseInvoicesDtoType(name: string): Option<FieldType>
  {
    match name
    case "invoiceIds" => Some(TArray)
    case _ => None
  }

  function SimplePurchaseInvoiceDtoType(name: string): Option<FieldType>
  {
    match name
    case "purchaseInvoiceId" => Some(TInt)
    case "invoiceNumber" => Some(TString)
    case "invoiceTypeCode" => Some(TString)
    case "invoiceTypeName" => Some(TString)
    case "issueDate" => Some(TString)
    case "dueDate" => Some(TString)
    case "taxPointDate" => Some(TString)
    case "currencyCode" => Some(TString)
    case "documentCurrencyCode" => Some(TString)
    case "currencyExchangeRate" => Some(TFloat)
    case "status" => Some(TString)
    case "cirInvoiceId" => Some(TString)
    case "cirStatus" => Some(TString)
    case "note" => Some(TString)
    case "paymentMeansCode" => Some(TString)
    case "paymentId" => Some(TString)
    case "paymentAccountId" => Some(TString)
    case "paymentAccountName" => Some(TString)
    case "contractDocumentReference" => Some(TString)
    case "orderReference" => Some(TString)
    case "originatorDocumentReference" => Some(TString)
    case "purchaseOrderReference" => Some(TString)
    case "salesOrderReference" => Some(TString)
    case "despatchDocumentReference" => Some(TString)
    case "receiptDocumentReference" => Some(TString)
    case "additionalDocumentReference" => Some(TString)
    case "billingReferenceInvoiceId" => Some(TString)
    case "billingReferenceIssueDate" => Some(TString)
    case "accountingSupplierParty" => Some(TObject(PartyDto))
    case "accountingCustomerParty" => Some(TObject(PartyDto))
    case "deliveryParty" => Some(TObject(PartyDto))
    case "payeeParty" => Some(TObject(PartyDto))
    case "taxExclusiveAmount" => Some(TFloat)
    case "taxInclusiveAmount" => Some(TFloat)
    case "allowanceTotalAmount" => Some(TFloat)
    case "chargeTotalAmount" => Some(TFloat)
    case "prepaidAmount" => Some(TFloat)
    case "payableRoundingAmount" => Some(TFloat)
    case "payableAmount" => Some(TFloat)
    case "taxSubtotals" => Some(TArray)
    case "invoiceLines" => Some(TArray)
    case "creationDate" => Some(TString)
    case "lastModifiedDate" => Some(TString)
    case "deliveredDate" => Some(TString)
    case "seenDate" => Some(TString)
    case "approvedDate" => Some(TString)
    case "rejectedDate" => Some(TString)
    case "cancelledDate" => Some(TString)
    case "cancelComments" => Some(TString)
    case "rejectComments" => Some(TString)
    case "approveComments" => Some(TString)
    case _ => None
  }

  function AcceptRejectResponseDtoType(name: string): Option<FieldType>
  {
    match name
    case "invoice" => Some(TObject(ChangeStatusInvoiceResponseDto))
    case "success" => Some(TBool)
    case "message" => Some(TString)
    case "httpStatus" => Some(TString)
    case _ => None
  }
}
