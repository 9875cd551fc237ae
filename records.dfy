/** The records kept in the four in-memory lists of backend-example.js and
    the replies the handlers send. */
module Records {
  import opened Wrappers

  /** An error reply: the HTTP status code and the `message` of its body. */
  datatype Failure = Failure(status: int, message: string)

  /** A handler's reply: a value on success, an error reply otherwise. */
  datatype Result<T> = Ok(value: T) | Err(failure: Failure)

  // The error replies of the handlers, with the source's own messages.
  const TokenRequired := Failure(401, "Access token required")
  const TokenInvalid := Failure(403, "Invalid token")
  const CredentialsRequired := Failure(400, "Email and password are required")
  const BadCredentials := Failure(401, "Invalid email or password")
  const FieldsRequired := Failure(400, "All fields are required")
  const EmailMalformed := Failure(400, "Please enter a valid email address")
  const PasswordTooShort := Failure(400, "Password must be at least 6 characters long")
  const UserTypeUnknown := Failure(400, "Invalid user type")
  const EmailTaken := Failure(409, "User with this email already exists")
  const UserNotFound := Failure(404, "User not found")
  const ProductNotFound := Failure(404, "Product not found")
  const OrderNotFound := Failure(404, "Order not found")

  /** A stored account; `passwordHash` is what the password hasher returned. */
  datatype User = User(
    id: int,
    name: string,
    email: string,
    passwordHash: string,
    userType: string,
    additionalInfo: string,
    createdAt: string)

  /** The account as it is sent to clients: every field but the password. */
  datatype PublicUser = PublicUser(
    id: int,
    name: string,
    email: string,
    userType: string,
    additionalInfo: string,
    createdAt: string)

  /** The claims a signed token carries and the auth gate hands on. */
  datatype Claims = Claims(userId: int, email: string, userType: string)

  /** The reply of a successful signup or login: the claims that are signed
      into the token, and the sanitised account. */
  datatype Grant = Grant(claims: Claims, user: PublicUser)

  /** The `userData` object built by signup, login and profile. */
  function Sanitize(u: User): PublicUser {
    PublicUser(u.id, u.name, u.email, u.userType, u.additionalInfo, u.createdAt)
  }

  /** Two accounts look the same to a client exactly when they differ at
      most in their password hash: the projection drops that field and no
      other. */
  lemma SanitizeDropsOnlyPassword(u: User, v: User)
    ensures Sanitize(u) == Sanitize(v) <==> u.(passwordHash := v.passwordHash) == v
  {
  }

  /** What signup and login send back for an account. */
  function GrantFor(u: User): (g: Grant)
    ensures g.user == Sanitize(u)
    ensures g.claims.userId == g.user.id && g.claims.email == g.user.email &&
            g.claims.userType == g.user.userType
  {
    Grant(Claims(u.id, u.email, u.userType), Sanitize(u))
  }

  /** The seven product fields a farmer sends when adding or updating a
      product; they are stored as given and never inspected. */
  datatype ProductDetails = ProductDetails(
    name: string,
    description: string,
    price: int,
    category: string,
    stock: int,
    minStock: int,
    image: string)

  datatype Product = Product(
    id: int,
    farmerId: int,
    details: ProductDetails,
    createdAt: string,
    updatedAt: Option<string>)

  /** An order; `details` stands for the fields no handler reads or writes. */
  datatype Order = Order(
    id: int,
    farmerId: int,
    status: string,
    total: int,
    details: string,
    updatedAt: Option<string>)

  /** A review; `details` stands for the fields no handler reads. */
  datatype Review = Review(farmerId: int, rating: int, details: string)
}
