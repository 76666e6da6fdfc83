# Emotion-based art generator: account routes and emotion-to-art mapping

This project models the request-handling logic of the Flask service in `app.py`. The service keeps a user table and serves three account routes. `POST /signup` inserts a user. `POST /login` checks credentials and issues a token that names the user's id. `GET /me` returns the logged-in user's id and e-mail. A fourth route, `POST /analyze_text`, takes the label that a text-classification model gives for the submitted text and turns it into an emotion and the URL of a picture.

Modules:

- `Http` (`http.dfy`) holds optional request fields and the JSON replies (status code plus body). It also defines `Present`, which is Python's truthiness test `not x` on a string field: the field is usable exactly when it is present and non-empty.
- `Accounts` (`accounts.dfy`) holds the user table. The table is the class `UserTable`, whose `rows` sequence `Signup` appends to. Its invariant `WellFormed` says that ids are positive and that no two rows share an id or an e-mail. Login and `/me` are pure functions over the rows. Password hashing is an abstract `Hasher`: `hash(password, salt)` and `check(digest, password)`. The random salt is a parameter of `Signup`.
- `EmotionArt` (`emotion_art.dfy`) holds the label lower-casing, the eight-entry picture table with its `calm.jpg` default, the `/static/art/` URL, and the route. The classifier is a function parameter `classify`, from text to raw label.

Behaviour of the code worth knowing:

- Login reports an unknown e-mail with 404 (app.py:86-87) and a wrong password with 401 (app.py:89-90), so a caller can tell whether an address is registered.
- The text guard (app.py:137-138) rejects only a missing or empty text. There is no trimming, so a text made only of whitespace is classified.
- The route reports the classifier's label lower-cased as the emotion (app.py:141) and looks that lower-cased label up in the table (app.py:143). A label the table does not hold (`joy`, for example) is reported as itself and gets `calm.jpg`.

## Model

| member | source | states |
|---|---|---|
| Accounts.NextId | app.py:40 | a new row's integer primary key is positive and larger than every id already in the table |
| Accounts.FindByEmailExact | app.py:60 | in a well-formed table, the lookup `FindByEmail`, which models `filter_by(email=…).first()`, finds nothing exactly when no row holds the address, and otherwise it finds the one row that does |
| Accounts.FindByIdExact | app.py:104 | in a well-formed table, the primary-key lookup `FindById`, which models `query.get(id)`, finds nothing exactly when no row has the id, and otherwise it finds that row |
| Accounts.Insert | app.py:63-67 | inserting an address the table lacks keeps ids and e-mails unique and adds exactly one row, which holds the address and the digest; every earlier row is unchanged |
| Accounts.UserTable.constructor | app.py:44-45 | the table starts empty and well formed |
| Accounts.UserTable.Signup | app.py:51-69 | a missing or empty field gives 400 and an existing address gives 409, and in both cases the table is unchanged; otherwise it returns 201 and appends one row holding the e-mail and the digest `hash(password, salt)` in place of the password, under the next id; the invariant is preserved |
| Accounts.Login | app.py:75-94 | the outcome is decided in a fixed order: 400 for missing fields, then 404 for an unknown address, then 401 when the password check fails, otherwise 200 with a token whose identity is the id of a row that holds the address and passes the check; the table is only read |
| Accounts.Me | app.py:100-105 | for an admitted identity, it returns 200 with that id and its row's e-mail exactly when a row has that id, and a server error otherwise |
| Accounts.SignupThenLogin | app.py:51-94 | with a sound hasher, signing up with a fresh address and then logging in with the same credentials returns 200 and a token for the new row's id |
| Accounts.InsertThenFind | app.py:60-67 | after a signup, the lookup by that address finds the new row, so a second signup with it takes the 409 branch |
| Accounts.LoginThenMe | app.py:84-105 | `/me` with the identity from a successful login's token returns that user's id and the e-mail used to log in |
| EmotionArt.LowerChar | app.py:141 | an upper-case ASCII letter becomes its lower-case partner; every other character is kept |
| EmotionArt.Lower | app.py:141 | lower-casing keeps the length, maps each upper-case letter to its lower-case partner, keeps every other character, and leaves no upper-case letter |
| EmotionArt.LowerIdempotent | app.py:141 | lower-casing a label twice gives the same result as doing it once |
| EmotionArt.LowerFixesLower | app.py:141 | a label that is already lower case is reported unchanged |
| EmotionArt.PictureFor | app.py:143 | the lookup always yields one of the eight file names in the table |
| EmotionArt.PictureTable | app.py:116-125 | each of the eight labels maps to its table entry, and any other label maps to `calm.jpg` |
| EmotionArt.CalmExactly | app.py:116-143 | `calm.jpg` is shown exactly for `neutral` and for labels outside the table, and every other picture belongs to one label only |
| EmotionArt.ArtUrl | app.py:144 | the URL is `/static/art/` followed by the file name, so the name can be read back from the URL |
| EmotionArt.AnalyzeText | app.py:131-146 | a missing or empty text gives 400 whatever the classifier would answer; otherwise it returns 200, the emotion is the classifier's label lower-cased, and the URL points at that emotion's picture |
| EmotionArt.AnalyzeReplies | app.py:140-146 | every reported URL is a table picture under `/static/art/`, and the reply depends on the label only up to letter case: a classifier whose labels are lower-cased first gives the same reply |

## Left out

- HTTP routing, JSON parsing and reply serialisation. Request fields are `Option<string>`. A JSON value that is not a string (a number or a list) and a request with no JSON body are not modelled.
- SQLAlchemy persistence, `db.create_all` and the session commit. The table is an in-memory sequence of rows, and a storage failure is not modelled.
- The column length limits (150 and 255 characters). SQLite does not enforce them.
- Accounts.NextId: the database's fallback to a random rowid once the largest id reaches the 64-bit limit is not modelled, because ids are unbounded integers.
- bcrypt. Hashing and verification are the two abstract functions of a `Hasher`. The salt is an input. Constant-time comparison is not modelled.
- JWT. Signing, the secret key, the one-day expiry and the `jwt_required` gate on `/me` and `/analyze_text` are not modelled, and neither are the gate's rejections. A token carries only the user's id, and the routes are modelled after the gate has admitted the request.
- The transformers classifier. Its label is the result of the `classify` parameter, and the model is assumed to answer for every text.
- EmotionArt.Lower: only ASCII letters are lower-cased. Python's `str.lower` also maps non-ASCII letters.
- EmotionArt.LowerChar: only an ASCII upper-case letter is changed. A non-ASCII upper-case letter such as `É` is kept, while Python's `str.lower` maps it to `é`.
- The race between two concurrent signups with the same address. The model is sequential.
- Environment loading, creating the art directory, and starting the server.
