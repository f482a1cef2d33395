# Navigation layer of the VPN app, in Dafny

This project models the navigation layer of an iOS VPN client, written in Swift, and proves properties of that model. The layer has four parts:

- `SourceRoute`: the string-backed enum that names the screen a flow started from.
- `NavigationData`: a source route plus a string-to-string map, handed from one screen to the next.
- `AppRoute`: the enum of all screens. Six of its cases carry an optional `NavigationData` payload. It also defines a title, an icon name and an authentication requirement for every screen.
- `NavigationManager`: an object that holds a stack of routes and a flag that says whether the main tab view should be shown. The flag is named `shouldShowMainTabView`.

Files:

- `routes.dfy` (module `Routes`): the value types as datatypes. Swift's default arguments become Dafny's default constructor arguments, so `NavigationData()` and `OtpVerification()` mean what they mean in Swift. The module also holds the derived properties and payload helpers. `Bare` drops a payload and `SameCase` compares cases while ignoring payloads. Those two give meaning to Swift `switch` patterns such as `case .otpVerification:`, which match whatever the payload is.
- `navigation.dfy` (module `Navigation`): pure functions for the stack operations that need one: `Pop` for going back, `BackTo` for going back to a target and `ReplaceTop` for replacing the top, each a function on `seq<AppRoute>`. `WithSourceData` is a function on a single route: it gives the route that `navigate(to:from:with:)` pushes. `FirstIndex` models `firstIndex(of:)`. Lemmas about these functions follow. The module also holds the class `NavigationManager`, whose methods reassign its two fields in place. `GoBack`, `GoBackTo` and `Replace` state the new stack as `Pop`, `BackTo` or `ReplaceTop` of the old stack. `Navigate` and `NavigateWithData` state it as the old stack with one route appended, or unchanged for the main tab view in `Navigate`. `GoToRoot` states it as the empty stack. Every method also says whether the flag changed. `SignUpSession` is a client that drives the class through its contracts alone.

Equality on routes is structural and includes the payload. `SameNavigationData` proves that the hand-written `==` on `NavigationData` agrees with structural equality. So Dafny's `==` on `AppRoute` is the equality Swift synthesizes, with one difference in how strings compare (see "## Left out"). `firstIndex(of:)` uses that equality. One consequence is proved in `BackToMissesAttachedData`: `navigate(to:from:with:)` pushes `.otpVerification` *with* data, and `goBackTo(.otpVerification())` then does not find that entry.

## Model

| member | source | states |
|---|---|---|
| `Routes.RawValue` | VPN/Views/Routes.swift:7-15 | no contract; the seven declared raw values, specified by `FromRawValue` and `RawValueRoundTrip` |
| `Routes.FromRawValue` | VPN/Views/Routes.swift:7-15 | the raw-value initialiser only returns a case whose declared raw value is the given string |
| `Routes.RawValueRoundTrip` | VPN/Views/Routes.swift:7-15 | every source route converts to its raw value and back to itself, so the raw values are distinct |
| `Routes.AllSourceRoutes` | VPN/Views/Routes.swift:7-15 | `allCases` has seven pairwise distinct entries |
| `Routes.AllSourceRoutesComplete` | VPN/Views/Routes.swift:7-15 | every source route appears in `allCases` |
| `Routes.NavigationDataDefaults` | VPN/Views/Routes.swift:22-25 | the initialiser with no arguments gives no source route and an empty map |
| `Routes.SameNavigationData` | VPN/Views/Routes.swift:27-29 | the hand-written `==` holds exactly when the two values are equal, i.e. both components agree |
| `Routes.WithDataLaws` | VPN/Views/Routes.swift:47-55 | a route is rebuilt from its case and its payload; changing the payload keeps the case and the flow it is declared under |
| `Routes.RouteEquality` | VPN/Views/Routes.swift:38-70 | two routes are equal exactly when they are the same case and carry equal payloads |
| `Routes.Title` | VPN/Views/Routes.swift:75-102 | no contract; the title table, specified by `CaseTitledInvertsTitle`, `TitleIdentifiesCase` and `PresentationIgnoresPayload` |
| `Routes.IconName` | VPN/Views/Routes.swift:105-132 | no contract; the icon table, specified only by `PresentationIgnoresPayload` |
| `Routes.RequiresAuth` | VPN/Views/Routes.swift:135-142 | no contract; specified by `RequiresAuthExactly`, `RequiresAuthByFlow` and `PresentationIgnoresPayload` |
| `Routes.CaseTitledInvertsTitle` | VPN/Views/Routes.swift:75-102 | the title of any route leads back to that route's case, without its payload |
| `Routes.TitleIdentifiesCase` | VPN/Views/Routes.swift:75-102 | two routes have the same title exactly when they are the same case |
| `Routes.PresentationIgnoresPayload` | VPN/Views/Routes.swift:75-142 | title, icon name and authentication requirement do not depend on the payload |
| `Routes.RequiresAuthExactly` | VPN/Views/Routes.swift:135-142 | a route needs no authentication exactly when it is intro, get started, sign up, login, forgot password or reset password, with any payload |
| `Routes.RequiresAuthByFlow` | VPN/Views/Routes.swift:135-142 | all main-app and additional screens need authentication, onboarding screens do not, and among the authentication screens exactly sign up, login, forgot password and reset password are open |
| `Navigation.FirstIndex` | VPN/Views/Routes.swift:195 | `firstIndex(of:)` returns an index that holds the target with no earlier occurrence, and returns nothing exactly when the target is absent |
| `Navigation.Pop` | VPN/Views/Routes.swift:182-186 | going back leaves a prefix of the stack one shorter, or the empty stack unchanged |
| `Navigation.PopRemovesTop` | VPN/Views/Routes.swift:182-186 | on a non-empty stack, going back removes exactly the top element |
| `Navigation.PopAfterPush` | VPN/Views/Routes.swift:182-186 | going back after a push restores the stack as it was |
| `Navigation.BackTo` | VPN/Views/Routes.swift:194-200 | going back to an absent target changes nothing; otherwise the result is a prefix that ends in the target and holds no earlier occurrence of it |
| `Navigation.BackToUnique` | VPN/Views/Routes.swift:194-200 | that prefix is unique: any prefix ending in the target with no earlier occurrence is the result |
| `Navigation.BackToStep` | VPN/Views/Routes.swift:194-200 | when the bottom route is not the target, going back keeps it and goes back to the target in the rest of the stack |
| `Navigation.BackToKeepsThrough` | VPN/Views/Routes.swift:194-200 | cutting at the first index of the target gives the same stack as walking up from the bottom and stopping once the target is kept; with no target the walk keeps everything |
| `Navigation.BackToIdempotent` | VPN/Views/Routes.swift:194-200 | going back to the same target a second time changes nothing |
| `Navigation.BackToMissesAttachedData` | VPN/Views/Routes.swift:194-200 | a route pushed with attached data is not found by `goBackTo` with the payload-free route |
| `Navigation.ReplaceTop` | VPN/Views/Routes.swift:203-208 | replace gives a stack of length max(n, 1) whose top is the new route, with every element below the old top unchanged |
| `Navigation.ReplaceTwice` | VPN/Views/Routes.swift:203-208 | replacing twice is the same as replacing once with the second route |
| `Navigation.PopAfterReplace` | VPN/Views/Routes.swift:203-208 | going back after a replace is the same as going back |
| `Navigation.TakesNavigationData` | VPN/Views/Routes.swift:168-173 | no contract; the three cases that `navigate(to:from:with:)` attaches data to, used by `WithSourceData` |
| `Navigation.WithSourceData` | VPN/Views/Routes.swift:160-176 | OTP verification, reset password and under verification get the source route and data as their payload, whatever payload they had; every other route is kept exactly as given |
| `Navigation.WithSourceDataKeepsPresentation` | VPN/Views/Routes.swift:160-176 | attaching navigation data never changes a route's title, icon or authentication requirement |
| `Navigation.NavigationManager.constructor` | VPN/Views/Routes.swift:147-148 | a new manager has an empty stack and the flag down |
| `Navigation.NavigationManager.Navigate` | VPN/Views/Routes.swift:151-157 | the main tab view raises the flag and leaves the stack unchanged; any other route is pushed and the flag is left alone |
| `Navigation.NavigationManager.NavigateWithData` | VPN/Views/Routes.swift:160-179 | pushes exactly one route, the one `WithSourceData` gives (the main tab view included), and leaves the flag alone |
| `Navigation.NavigationManager.GoBack` | VPN/Views/Routes.swift:182-186 | the new stack is `Pop` of the old one; the flag is unchanged |
| `Navigation.NavigationManager.GoToRoot` | VPN/Views/Routes.swift:189-191 | the stack becomes empty, so a second call changes nothing; the flag is unchanged |
| `Navigation.NavigationManager.GoBackTo` | VPN/Views/Routes.swift:194-200 | the new stack is `BackTo` of the old one and the target; the flag is unchanged |
| `Navigation.NavigationManager.Replace` | VPN/Views/Routes.swift:203-208 | the new stack is `ReplaceTop` of the old one and the route; the flag is unchanged |

## Left out

- Strings, both in payload maps and in route equality, are compared character by character, with no Unicode normalization. Swift's `String ==` and `Dictionary` keys use canonical equivalence instead. So for strings that are canonically equivalent but spelled differently (a precomposed "é" against "e" plus a combining accent), the model's `SameNavigationData`, route `==`, `FirstIndex` and `BackTo` answer "different" where Swift answers "equal". A Dafny `map<string, string>` can also hold two such keys that a Swift dictionary treats as one.

- `hash(into:)` of `NavigationData`: it feeds the Swift standard library's `Hasher`, whose output is not specified. Only equality is modelled.
- `@Published` and `ObservableObject` change notification: the two fields are plain mutable state here, and observers are not modelled.
- `NavigationManager` reassigns whole `seq` values. The model does not capture copy-on-write sharing of Swift arrays, which has no observable effect in this class.
- `Double.h`, `Double.w`, `Double.sp` and `Double.r`: floating-point scaling that depends on the device's screen size.
- `UIView.fadeTo`, `fadeIn`, `fadeOut` and `roundCorners`: asynchronous main-queue dispatch, UIKit animation and layer masks.
- `MainView.swift`, `CustomTab.swift`, `VPN/Views/StackView.swift` and `CircularProgressView.swift`: SwiftUI view trees. Their only computations are floating-point layout (`calculateOffset`, the tab bar's notch path, the progress percentage text), which depends on rendering. Their tab selection is a plain binding assignment.
- `IconName` is modelled as the full table. The only property proved about it is that it ignores the payload. Icon names are not unique, so there is no inverse to state.
