/** The enumerations of the database schema that the modelled logic branches on. */
module Schema {

  /** `User.role` (lib/db/schema.ts:23). */
  datatype Role = User | PaidUser | Admin

  function RoleName(r: Role): string
  {
    match r
    case User => "user"
    case PaidUser => "paiduser"
    case Admin => "admin"
  }

  /** `User.subscriptionStatus` (lib/db/schema.ts:30-32). */
  datatype SubscriptionStatus = Active | Inactive | Trialing | PastDue | Canceled | Unpaid

  /** `CMSContent.type` (lib/db/schema.ts:193). */
  datatype ContentType = Prompt | Template | Document | Config

  function ContentTypeName(t: ContentType): string
  {
    match t
    case Prompt => "prompt"
    case Template => "template"
    case Document => "document"
    case Config => "config"
  }

  /** `Payment.status` (lib/db/schema.ts:251). */
  datatype PaymentStatus = Pending | Completed | Failed | Refunded
}
