# Design-pattern catalogue: the composite permission and validation engine, and the stateful demos

This project models, in Dafny, the parts of a TypeScript design-pattern catalogue whose behaviour can be stated exactly.

**The composite examples** (`02-estructurales/composite-examples`):
- Access rules: the leaf permissions (admin, owner, moderator, verified user) and `CompositePermission`, which folds its children with AND (`every`) or OR (`some`) and denies when it has no children.
- The three named permissions built from those pieces: edit, delete (with a veto on protected resources) and publish (a nested composite).
- Registration checks: the leaf validators (email, password, name) and `CompositeValidator`, which runs every child and gathers the errors in order.
- The two named validator groups: personal data, and user registration.
- The registration use case, the controller that turns its result into a status (201, 400 or 500), and the permission-check use case.

**The stateful demos:**
- The immutable editor state with `copyWith`, and the undo/redo history.
- The flyweight marker cache.
- The dragon-balls singleton.
- The character decorators.
- The computer builder.
- The document prototype.

## Modelling choices

**Permission and validator trees.** Each permission or validator object is a value of a tree datatype, `Permissions.Permission` or `Validators.Validator`: a leaf, or a composite over a sequence of children. The composite classes are Dafny classes:
- `Permissions.CompositePermission` and `Validators.CompositeValidator` keep that child sequence in a field, and `add` appends to it in place.
- `check` is a function of the current state.
- `validate` is a method with the same loop as the source.

`DeletePermission` overrides `check`. It is modelled as a class that holds its inherited AND composite as `base`, and as the tree `ProtectedVeto(base)`.

**Exceptions in permission checks.** The owner rule reads `resource.ownerId`, and JavaScript throws a `TypeError` when the resource is absent. `check` therefore returns an `Outcome`: `Returned(b)` or `Threw`. `every` and `some` stop left to right exactly as JavaScript's do, so `EditPermission` still answers `true` for an admin with no resource. With a resource supplied, nothing throws (`NeverThrowsWithResource`), and composites are plain conjunctions or disjunctions (`CompositeMeaning`).

**White space and the email pattern.**
- `\s` and `trim` both use the ECMAScript white-space and line-terminator set (`TextRules.IsSpace`).
- The email pattern `^[^\s@]+@[^\s@]+\.[^\s@]+$` is written two ways: as its language (`MatchesEmailPattern`, an existential over the three parts) and as a direct check (`IsEmailShaped`). They are proved equal.

**The controller.** Its `try`/`catch` is modelled by `UserControllers.Respond` over an outcome that is either `Completed(result)` or `Failed` (an exception). The modelled use case cannot throw, so `createUser` only ever answers 201 or 400.

**The history.** The undo/redo history is a class whose methods are proved against pure step functions (`SaveOp`, `UndoOp`, `RedoOp`) on a `Timeline` value. The properties of the history are proved on those step functions.

**The static instance.** The singleton's static `instance` slot is an explicit `DragonBallsRegistry` object.

**Demo values.** The demos' `main` functions only print. Their expected values appear as lemmas or scenario methods:
- the answers the permission and validation drivers record in comments;
- the flyweight example's fourteen locations, which use five distinct types (house, school, hospital, park, restaurant) and therefore five markers;
- the singleton session, which ends with one ball;
- the decorator chain, which ends at attack 35 and defense 40.

## Model

| member | source | states |
|---|---|---|
| `Permissions.NeverThrowsWithResource` | 02-estructurales/composite-examples/application/permissions/role-permissions.ts:20-22 | Only the owner rule reads the resource, so with a resource supplied no permission tree throws. |
| `Permissions.AllReturnWithResource` | 02-estructurales/composite-examples/application/permissions/composite-permission.ts:31-35 | With a resource supplied, the `every` and `some` folds over any child list return a boolean. |
| `Permissions.EveryIsConjunction` | 02-estructurales/composite-examples/application/permissions/composite-permission.ts:31-32 | When no child throws, the short-circuiting `every` equals the conjunction of all children's answers. |
| `Permissions.SomeIsDisjunction` | 02-estructurales/composite-examples/application/permissions/composite-permission.ts:33-34 | When no child throws, the short-circuiting `some` equals the disjunction of the children's answers. |
| `Permissions.CompositeMeaning` | 02-estructurales/composite-examples/application/permissions/composite-permission.ts:26-36 | With a resource, a composite grants iff it is non-empty and, for AND, every child grants or, for OR, some child grants. |
| `Permissions.EmptyCompositeDenies` | 02-estructurales/composite-examples/application/permissions/composite-permission.ts:27-29 | A composite with no children returns false in both modes, for any user and resource. |
| `Permissions.Flattening` | 02-estructurales/composite-examples/application/permissions/composite-permission.ts:26-36 | For every user and every resource, supplied or not, nesting a non-empty composite of the same mode gives the same outcome as splicing its children in place, including a thrown error. |
| `Permissions.EveryAppend` | 02-estructurales/composite-examples/application/permissions/composite-permission.ts:31-32 | `every` over two concatenated lists reaches the second list only when the whole first list grants; otherwise its outcome is the first list's. |
| `Permissions.AnyAppend` | 02-estructurales/composite-examples/application/permissions/composite-permission.ts:33-34 | `some` over two concatenated lists reaches the second list only when nothing in the first list grants; otherwise its outcome is the first list's. |
| `Permissions.LeafRules` | 02-estructurales/composite-examples/application/permissions/role-permissions.ts:13-36 | For any resource, supplied or not: admin iff role is "admin"; moderator iff role is "moderator"; verified only when `verified` is exactly true, so absent counts as false. With a resource, owner iff the ids match; without one, the owner rule throws. |
| `Permissions.CompositePermission.constructor` | 02-estructurales/composite-examples/application/permissions/composite-permission.ts:11-16 | A new composite has the given mode (AND by default) and no children. |
| `Permissions.CompositePermission.Add` | 02-estructurales/composite-examples/application/permissions/composite-permission.ts:18-24 | Adding one permission appends it at the end; existing children and the mode are kept. |
| `Permissions.CompositePermission.AddAll` | 02-estructurales/composite-examples/application/permissions/composite-permission.ts:18-24 | Adding an array appends all of it in order; existing children and the mode are kept. |
| `Permissions.CompositePermission.Check` | 02-estructurales/composite-examples/application/permissions/composite-permission.ts:26-36 | Empty gives false. Whenever no child throws (always the case with a resource, and for resource-free children such as publish's without one), AND is the conjunction and OR the disjunction of the children. It reads the state and changes nothing. |
| `RolePermissions.NewEditPermission` | 02-estructurales/composite-examples/application/permissions/role-permissions.ts:40-48 | An edit permission is an OR composite holding admin then owner. |
| `RolePermissions.NewPublishPermission` | 02-estructurales/composite-examples/application/permissions/role-permissions.ts:73-89 | A publish permission is OR of admin and a nested AND of moderator and verified. |
| `RolePermissions.DeletePermission.constructor` | 02-estructurales/composite-examples/application/permissions/role-permissions.ts:52-57 | A delete permission's base is a fresh AND composite holding only admin. |
| `RolePermissions.DeletePermission.Check` | 02-estructurales/composite-examples/application/permissions/role-permissions.ts:59-69 | A protected resource is refused even to an admin; otherwise the answer is the base composite's. |
| `RolePermissions.EditMeaning` | 02-estructurales/composite-examples/application/permissions/role-permissions.ts:40-48 | With a resource, edit is granted iff the user is admin or the resource's owner. |
| `RolePermissions.EditWithoutResource` | 02-estructurales/composite-examples/application/permissions/role-permissions.ts:20-22 | Without a resource, edit answers true for an admin (`some` stops early) and throws for anyone else. |
| `RolePermissions.DeleteMeaning` | 02-estructurales/composite-examples/application/permissions/role-permissions.ts:59-69 | Delete is false on a protected resource, and equals "role is admin" on an unprotected or absent one. |
| `RolePermissions.PublishMeaning` | 02-estructurales/composite-examples/application/permissions/role-permissions.ts:73-89 | Publish is granted iff admin, or moderator with `verified` exactly true, whatever the resource. |
| `RolePermissions.PermissionScenarios` | 02-estructurales/composite-examples/example-permissions.ts:21-58 | The driver's recorded answers for edit, delete and publish hold. |
| `RolePermissions.AdminOrVerifiedOwnerScenarios` | 02-estructurales/composite-examples/example-permissions.ts:63-81 | OR(admin, AND(owner, verified)) admits an admin and a verified owner and rejects an unverified owner. |
| `CheckPermission.Execute` | 02-estructurales/composite-examples/application/use-cases/check-permission.ts:22-26 | The use case returns the permission's own answer for the request's user and resource; it never throws when a resource is supplied. |
| `CheckPermission.AdminMayEditThroughUseCase` | 02-estructurales/composite-examples/example-permissions.ts:86-94 | An admin asking for edit through the use case gets true. |
| `TextRules.LeadingSpace` | 02-estructurales/composite-examples/application/validators/user-validators.ts:41 | The count of leading white-space characters: all of them are white space and the next one is not. |
| `TextRules.TrailingSpace` | 02-estructurales/composite-examples/application/validators/user-validators.ts:41 | Where trailing white space starts: all after it is white space and the character before is not. |
| `TextRules.TrimStart` | 02-estructurales/composite-examples/application/validators/user-validators.ts:41 | The result is a suffix of the input, what was removed is all white space, and the result does not start with white space. |
| `TextRules.TrimEnd` | 02-estructurales/composite-examples/application/validators/user-validators.ts:41 | The result is a prefix of the input, what was removed is all white space, and the result does not end with white space. |
| `TextRules.TrimEmptyIffAllSpace` | 02-estructurales/composite-examples/application/validators/user-validators.ts:41 | `trim()` gives the empty string exactly when every character is white space. |
| `TextRules.ShapedMatchesPattern` | 02-estructurales/composite-examples/application/validators/user-validators.ts:17 | Every string the direct check accepts is in the regular expression's language. |
| `TextRules.PatternIsShaped` | 02-estructurales/composite-examples/application/validators/user-validators.ts:17 | Every string of the regular expression's language passes the direct check. |
| `TextRules.EmailShapeIsPattern` | 02-estructurales/composite-examples/application/validators/user-validators.ts:17-18 | The direct check accepts exactly the language of `^[^\s@]+@[^\s@]+\.[^\s@]+$`. |
| `Validators.EmailVerdicts` | 02-estructurales/composite-examples/application/validators/user-validators.ts:13-22 | Absent or empty gives exactly the "required" error; present but not matching gives exactly the "invalid" error; valid iff it matches; never more than one error. |
| `Validators.PasswordVerdicts` | 02-estructurales/composite-examples/application/validators/user-validators.ts:27-35 | Absent or empty gives the "required" error; 1 to 7 characters gives the length error; valid iff at least 8 characters; never more than one error. |
| `Validators.NameVerdicts` | 02-estructurales/composite-examples/application/validators/user-validators.ts:40-48 | Absent or all white space gives the "required" error; otherwise under 3 characters, counted before trimming, gives the length error; else valid. |
| `Validators.ValidIffNoErrors` | 02-estructurales/composite-examples/application/validators/user-validators.ts:15-47 | Any validator tree reports valid exactly when it reports no errors. |
| `Validators.AccumulateValidIffNoErrors` | 02-estructurales/composite-examples/application/validators/composite-validator.ts:22-38 | The composite fold reports valid exactly when it gathered no errors. |
| `Validators.AllErrorsAppend` | 02-estructurales/composite-examples/application/validators/composite-validator.ts:28-31 | Gathering errors over a list with one more child appends that child's errors at the end. |
| `Validators.AccumulateMeaning` | 02-estructurales/composite-examples/application/validators/composite-validator.ts:22-38 | The composite is valid iff every child is valid, and its errors are all children's errors in child order; errors of valid children are not added. |
| `Validators.EmptyCompositePasses` | 02-estructurales/composite-examples/application/validators/composite-validator.ts:23-24 | A composite with no children is valid with no errors. |
| `Validators.CompositeValidator.constructor` | 02-estructurales/composite-examples/application/validators/composite-validator.ts:12 | A new composite validator has no children. |
| `Validators.CompositeValidator.Add` | 02-estructurales/composite-examples/application/validators/composite-validator.ts:14-20 | Adding one validator appends it at the end and keeps the others. |
| `Validators.CompositeValidator.AddAll` | 02-estructurales/composite-examples/application/validators/composite-validator.ts:14-20 | Adding an array appends all of it in order and keeps the others. |
| `Validators.CompositeValidator.Validate` | 02-estructurales/composite-examples/application/validators/composite-validator.ts:22-38 | The loop visits every child with no short-circuit; valid iff all children are valid; errors are the children's errors in order; the child list is untouched. |
| `UserValidators.NewPersonalDataValidator` | 02-estructurales/composite-examples/application/validators/user-validators.ts:52-60 | The personal-data validator holds name then email. |
| `UserValidators.NewUserRegistrationValidator` | 02-estructurales/composite-examples/application/validators/user-validators.ts:63-71 | The registration validator holds the personal-data composite then password. |
| `UserValidators.PersonalDataMeaning` | 02-estructurales/composite-examples/application/validators/user-validators.ts:52-60 | Personal data is valid iff name and email are; its errors are the name's, then the email's. |
| `UserValidators.RegistrationMeaning` | 02-estructurales/composite-examples/application/validators/user-validators.ts:63-71 | Registration is valid iff name, email and password all are; its errors are name's, then email's, then password's. |
| `UserValidators.NoAtSignIsNotEmail` | 02-estructurales/composite-examples/application/validators/user-validators.ts:17-18 | A string with no `@` fails the email pattern. |
| `UserValidators.ExampleComIsEmail` | 02-estructurales/composite-examples/application/validators/user-validators.ts:17-18 | Any non-empty run of plain characters followed by `@example.com` matches the email pattern. |
| `UserValidators.TestEmailPasses` | 02-estructurales/composite-examples/example-validations.ts:55 | `test@example.com` passes the email validator. |
| `UserValidators.JuanEmailPasses` | 02-estructurales/composite-examples/example-validations.ts:63 | `juan@example.com` passes the email validator. |
| `UserValidators.DashedEmailFails` | 02-estructurales/composite-examples/example-validations.ts:56 | `email-invalido` fails with exactly the "invalid" error. |
| `UserValidators.ShortNameFails` | 02-estructurales/composite-examples/application/validators/user-validators.ts:44-45 | A one- or two-character name not starting with white space fails with exactly the length error. |
| `UserValidators.LongNamePasses` | 02-estructurales/composite-examples/application/validators/user-validators.ts:40-48 | A name of 3 or more characters not starting with white space passes. |
| `UserValidators.PersonalDataScenarios` | 02-estructurales/composite-examples/example-validations.ts:61-68 | The driver's personal-data inputs give valid, and the short-name and invalid-email errors in that order. |
| `UserValidators.RegistrationPassesScenario` | 02-estructurales/composite-examples/example-validations.ts:73-77 | The driver's clean registration payload passes. |
| `UserValidators.RegistrationFailsEverywhere` | 02-estructurales/composite-examples/application/validators/user-validators.ts:63-71 | A payload failing all three rules gets exactly the three messages in field order. |
| `UserValidators.ShortPasswordFails` | 02-estructurales/composite-examples/application/validators/user-validators.ts:31-32 | The password "123" fails with exactly the length error. |
| `UserValidators.RegistrationFailsScenario` | 02-estructurales/composite-examples/example-validations.ts:37-45 | ("Jo", "email-invalido", "123") yields the name, email and password errors in that order. |
| `UserValidators.PaddedShortNamePasses` | 02-estructurales/composite-examples/application/validators/user-validators.ts:41-45 | Length is measured before trimming, so "  a" passes the name rule. |
| `CreateUser.AsUserData` | 02-estructurales/composite-examples/application/use-cases/create-user.ts:23-25 | The request's three strings become the validated payload, each present. |
| `CreateUser.CreateUserUseCase.constructor` | 02-estructurales/composite-examples/application/use-cases/create-user.ts:17-21 | The use case owns a fresh registration validator, built once. |
| `CreateUser.CreateUserUseCase.Execute` | 02-estructurales/composite-examples/application/use-cases/create-user.ts:23-37 | A failed validation is returned unchanged, a passed one gives valid with no errors; valid iff all three leaf rules pass; errors in field order. |
| `UserControllers.ToRequest` | 02-estructurales/composite-examples/presentation/controllers/user-controller.ts:14-18 | The use case receives exactly the body's name, email and password. |
| `UserControllers.Respond` | 02-estructurales/composite-examples/presentation/controllers/user-controller.ts:20-45 | The status is 201, 400 or 500: 400 iff an invalid result, with its errors passed through; 201 iff valid, with the success message; 500 iff an exception, with the generic message and no errors field. |
| `UserControllers.UserController.constructor` | 02-estructurales/composite-examples/presentation/controllers/user-controller.ts:10 | The controller keeps the use case it is given. |
| `UserControllers.UserController.CreateUser` | 02-estructurales/composite-examples/presentation/controllers/user-controller.ts:12-46 | The answer is 201 iff all three fields pass, else 400 with every error in field order; never 500. |
| `UserControllers.AcceptedRequest` | 02-estructurales/composite-examples/example-validations.ts:18-30 | The driver's clean request is answered 201 with the success message. |
| `UserControllers.RejectedRequest` | 02-estructurales/composite-examples/example-validations.ts:37-45 | The driver's bad request is answered 400 with the three errors in field order. |
| `EditorHistory.CopyWithReplacesExactlySupplied` | 01-creacionales/05-inmutabilidad.ts:18-23 | `copyWith` takes each supplied field from the patch and keeps each omitted one from the receiver. |
| `EditorHistory.CopyWithNothingIsEqual` | 01-creacionales/05-inmutabilidad.ts:18-23 | A copy with no fields supplied equals the receiver. |
| `EditorHistory.CopyWithComposes` | 01-creacionales/05-inmutabilidad.ts:18-23 | Two copies equal one copy with the merged patch, the later patch winning; re-applying a patch changes nothing. |
| `EditorHistory.SaveOp` | 01-creacionales/05-inmutabilidad.ts:39-45 | Save keeps the states up to the current one, appends the new state as current and last, leaves nothing to redo, and preserves the index invariant. |
| `EditorHistory.RedoOp` | 01-creacionales/05-inmutabilidad.ts:47-54 | Redo succeeds iff a later state exists, moving one forward and returning it; otherwise it returns nothing and changes nothing. |
| `EditorHistory.UndoOp` | 01-creacionales/05-inmutabilidad.ts:56-63 | Undo succeeds iff the index is above 0, moving one back and returning it; it never moves before the first state. |
| `EditorHistory.UndoThenRedo` | 01-creacionales/05-inmutabilidad.ts:47-63 | A successful undo followed by redo restores the history and returns the state current before the undo. |
| `EditorHistory.RedoThenUndo` | 01-creacionales/05-inmutabilidad.ts:47-63 | A successful redo followed by undo restores the history. |
| `EditorHistory.SaveClearsRedo` | 01-creacionales/05-inmutabilidad.ts:39-54 | After a save, including a save after an undo, redo returns nothing. |
| `EditorHistory.RunStaysWellFormed` | 01-creacionales/05-inmutabilidad.ts:35-64 | Under any sequence of saves, undos and redos the index stays in range, and once something is saved there is always a current state. |
| `EditorHistory.CodeEditorHistory.constructor` | 01-creacionales/05-inmutabilidad.ts:36-37 | A new history is empty with index -1. |
| `EditorHistory.CodeEditorHistory.Save` | 01-creacionales/05-inmutabilidad.ts:39-45 | The object's new state is the save step of its old state. |
| `EditorHistory.CodeEditorHistory.Redo` | 01-creacionales/05-inmutabilidad.ts:47-54 | The object's new state and the returned value are the redo step of its old state. |
| `EditorHistory.CodeEditorHistory.Undo` | 01-creacionales/05-inmutabilidad.ts:56-63 | The object's new state and the returned value are the undo step of its old state. |
| `EditorHistory.EditorSession` | 01-creacionales/05-inmutabilidad.ts:66-98 | In the example session, undo returns the updated state at cursor 3 and redo returns the one at cursor 5. |
| `Flyweight.AsciiLower` | 02-estructurales/06-flyweight.ts:41 | Lower-casing keeps the length. |
| `Flyweight.AsciiLowerChars` | 02-estructurales/06-flyweight.ts:41 | Lower-casing maps each character on its own. |
| `Flyweight.AsciiLowerIdempotent` | 02-estructurales/06-flyweight.ts:41 | Lower-casing twice is lower-casing once, and leaves no upper-case ASCII letter. |
| `Flyweight.IconImageShape` | 02-estructurales/06-flyweight.ts:41 | An icon name is "image_of_", the lower-cased type, then ".png"; two types share an icon name iff they lower-case alike. |
| `Flyweight.LocationMarker.constructor` | 02-estructurales/06-flyweight.ts:21-24 | A marker stores its type and icon image as given. |
| `Flyweight.LocationFactory.constructor` | 02-estructurales/06-flyweight.ts:36 | A new factory has an empty cache. |
| `Flyweight.LocationFactory.GetLocationIcon` | 02-estructurales/06-flyweight.ts:38-46 | A cached type returns its cached marker and changes nothing; an uncached one gets a fresh marker of that type and icon, added under it; no other entry changes. |
| `Flyweight.DistinctTypesDistinctMarkers` | 02-estructurales/06-flyweight.ts:38-46 | In a cache whose markers match their keys, different types map to different marker objects. |
| `Flyweight.MapLocation.constructor` | 02-estructurales/06-flyweight.ts:53-56 | A location stores its coordinates and marker as given. |
| `Flyweight.GetLocationIcons` | 02-estructurales/06-flyweight.ts:64-80 | After a series of requests, the cache keys are the old keys plus the requested types, old entries are unchanged, and each request got its type's cached marker. |
| `Flyweight.CityTypesAreFive` | 02-estructurales/06-flyweight.ts:65-80 | The example's fourteen requests name five distinct types. |
| `Flyweight.CityMarkers` | 02-estructurales/06-flyweight.ts:63-80 | The example's fourteen requests leave exactly five markers in the cache. |
| `Singleton.AfterCollect` | 01-creacionales/06-singleton.ts:31-38 | Collecting adds one exactly when fewer than 7 are held, otherwise nothing, and keeps the count within 0..7. |
| `Singleton.AfterSummon` | 01-creacionales/06-singleton.ts:40-47 | Summoning leaves 0 exactly when 7 (or 0) were held, and otherwise changes nothing. |
| `Singleton.CounterStaysInRange` | 01-creacionales/06-singleton.ts:15-48 | Under any sequence of collects and summons the count stays within 0..7 and grows by at most one per action. |
| `Singleton.SevenThenSummon` | 01-creacionales/06-singleton.ts:31-47 | Collecting up to seven fills the set, and a summon then resets it to 0. |
| `Singleton.DragonBalls.constructor` | 01-creacionales/06-singleton.ts:19-21 | A new instance holds 0 balls. |
| `Singleton.DragonBalls.CollectBall` | 01-creacionales/06-singleton.ts:31-38 | The new count is the collect step of the old one, within 0..7. |
| `Singleton.DragonBalls.SummonShenlong` | 01-creacionales/06-singleton.ts:40-47 | The new count is the summon step of the old one, within 0..7. |
| `Singleton.DragonBallsRegistry.constructor` | 01-creacionales/06-singleton.ts:16 | Before the first `getInstance` there is no instance. |
| `Singleton.DragonBallsRegistry.GetInstance` | 01-creacionales/06-singleton.ts:23-29 | The first call creates a fresh instance with 0 balls; later calls return that same instance. |
| `Singleton.DragonBallsSession` | 01-creacionales/06-singleton.ts:50-68 | Goku's and Vegeta's handles are one object, and the session ends with 1 ball. |
| `Decorator.Bonus` | 02-estructurales/04.2-decorator.ts:59-99 | Helmet and shield add only defense, sword and ring only attack, and no bonus is negative. |
| `Decorator.GetStats` | 02-estructurales/04.2-decorator.ts:32-99 | Any chain's stats are at least the basic 25/25. |
| `Decorator.GetDescription` | 02-estructurales/04.2-decorator.ts:29-94 | Any chain's description starts with "Personaje básico". |
| `Decorator.Accessories` | 02-estructurales/04.2-decorator.ts:39-50 | A chain lists no accessories exactly when it is the undecorated basic character. |
| `Decorator.WearAccessories` | 02-estructurales/04.2-decorator.ts:39-50 | Rebuilding a chain from its accessory list gives the same chain. |
| `Decorator.AccessoriesWear` | 02-estructurales/04.2-decorator.ts:39-50 | Listing the accessories of a built chain gives the list it was built from. |
| `Decorator.StatsFormula` | 02-estructurales/04.2-decorator.ts:59-99 | Stats are 25 + 7 per sword + 3 per ring attack, and 25 + 5 per helmet + 10 per shield defense. |
| `Decorator.OrderDoesNotMatter` | 02-estructurales/04.2-decorator.ts:104-127 | Chains wearing the same accessories in any order have equal stats. |
| `Decorator.DescriptionFormula` | 02-estructurales/04.2-decorator.ts:55-94 | The description is the basic one followed by each accessory's line, innermost first. |
| `Decorator.ExampleStats` | 02-estructurales/04.2-decorator.ts:104-127 | The example chain ends at attack 35 and defense 40. |
| `Decorator.ExampleDescription` | 02-estructurales/04.2-decorator.ts:104-127 | The example chain's description lists helmet, shield, sword, ring, in that order. |
| `Builder.SetPartOnlyItsField` | 01-creacionales/01-builder.ts:40-58 | A setter writes its own part and leaves the other three unchanged. |
| `Builder.SettersCommuteAndLastWins` | 01-creacionales/01-builder.ts:40-58 | Setters on different parts commute, and of two writes to one part the last wins. |
| `Builder.Computer.constructor` | 01-creacionales/01-builder.ts:18-21 | A new computer has all four parts at their "not defined" defaults. |
| `Builder.ComputerBuilder.constructor` | 01-creacionales/01-builder.ts:36-38 | A new builder owns a fresh default computer. |
| `Builder.ComputerBuilder.SetCpu` | 01-creacionales/01-builder.ts:40-43 | Sets only the CPU and returns the same builder. |
| `Builder.ComputerBuilder.SetRam` | 01-creacionales/01-builder.ts:45-48 | Sets only the RAM and returns the same builder. |
| `Builder.ComputerBuilder.SetStorage` | 01-creacionales/01-builder.ts:50-53 | Sets only the storage and returns the same builder. |
| `Builder.ComputerBuilder.SetGpu` | 01-creacionales/01-builder.ts:55-58 | Sets only the GPU and returns the same builder. |
| `Builder.ComputerBuilder.Build` | 01-creacionales/01-builder.ts:60-62 | `build` returns the builder's own computer, not a copy. |
| `Builder.ExampleComputers` | 01-creacionales/01-builder.ts:65-84 | The basic computer keeps the default GPU; the gaming one has all four parts set; they are distinct objects. |
| `Builder.BuildAliases` | 01-creacionales/01-builder.ts:60-62 | Two builds return one object, so a setter called after `build` changes the computer already built. |
| `Prototype.Document.constructor` | 01-creacionales/04-prototype.ts:14 | A document stores title, content and author as given. |
| `Prototype.Document.Clone` | 01-creacionales/04-prototype.ts:22-24 | A clone is a fresh object with the same three fields, and the original is unchanged. |
| `Prototype.CloneIsIndependent` | 01-creacionales/04-prototype.ts:27-37 | Renaming the example document's clone leaves the original as it was. |
| `Prototype.TwoClones` | 01-creacionales/04-prototype.ts:22-24 | Two clones are distinct objects with fields equal to each other and to the original. |

## Left out

- Flyweight.LocationFactory.GetLocationIcon: the cache is a map with no inherited entries. In the source, `icons` is a plain object and the lookup is a truthiness test. A marker type that names an `Object.prototype` member ("constructor", "toString", "hasOwnProperty", "__proto__") therefore finds that member: the source creates no marker and returns a value that is not a `LocationMarker`. The model creates a fresh marker for such a type, as for any other uncached type.
- Console output is not modelled: `displayState`, `display`, `displayConfig`, `displayInfo`, and the logging in `getLocationIcon`, `getInstance`, `collectBall`, `summonShenlong` and the create-user use case. None of it affects a returned value or a field.
- Composite children are added as values. A child composite that is changed after being added to a parent is not seen by the parent in this model; in the source it is shared by reference.
- JavaScript `number` is modelled as an unbounded integer (cursor position, coordinates, ball count, stats). No code path comes near the double-precision limits.
- String lengths count characters. JavaScript counts UTF-16 code units, so the password and name length rules differ for characters outside the Basic Multilingual Plane.
- `toLocaleLowerCase` is modelled as ASCII lower-casing. Locale-specific and non-ASCII case mappings are not modelled.
- The `any`-typed user and resource are records with the fields the rules read. Extra fields, such as the resource's `name`, are ignored. `verified` and `protected` are optional booleans; truthy non-boolean values are not modelled.
- Validator inputs are optional strings. Other falsy JavaScript values (`null`, `0`) and non-string fields are not modelled.
- UserControllers.UserController.CreateUser: the 500 branch cannot be reached, because the modelled use case never throws. The branch exists only in `Respond`, over an explicit `Failed` outcome.
- The abstract `CharacterDecorator` pass-through is not modelled. It cannot be instantiated, and every concrete decorator overrides both methods.
- Flyweight.CityMarkers: the fourteen `MapLocation` objects of the example are not allocated. Only their fourteen marker requests are modelled, through `GetLocationIcons`, which stands for those calls in order.
- Singleton: the private constructor is not enforced. The model does not prevent a second `DragonBalls` from being allocated outside the registry.
- Builder: `GPU` is optional in the source, but no setter ever stores `undefined`, so it is modelled as a plain string. The `?? 'not defined'` fallback in `displayConfig` is output only.
- Prototype: `content` is private in the source; Dafny fields have no visibility, so the model does not capture it.
