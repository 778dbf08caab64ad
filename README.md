# QR generator: payload builder and device actions

A model of the logic inside the one screen of a React Native QR-code generator.
The user picks a content category and types one or two text fields. The app then
builds a payload string and hands it to a QR encoder. The screen has three
actions that reach the device:

- `sendSMS` opens an `sms:` URI.
- `sendEmail` opens a `mailto:` URI.
- `saveQRCode` writes the rendered code to the gallery, but only after the
  storage permission is held.

Files:

- `payload.dfy`, module `QrPayload`: the builder `getQRData` as the pure
  function `Payload` over a `Category` datatype and a `Form` record of the
  five text fields. `Classify` is the `switch` on the stored tag string.
  `GetQRData` composes the two. Lemmas state each branch's shape:
  - the Wi-Fi template of ZXing;
  - `mailto:` (loosely section 2 of RFC 6068);
  - `sms:` (loosely section 2.2 of RFC 5724);
  - `tel:` (loosely section 3 of RFC 3966);
  - the `https://` rule for websites;
  - the fixed social-media prefixes;
  - the pass-through default.

  Fields are inserted verbatim, exactly as the app does. Nothing is
  percent-encoded or escaped. The model proves that a payload determines its
  fields when the first field has no `;` (Wi-Fi) or no `?` (email and sms).
  Counterexample lemmas show two different field pairs giving one payload
  when the first field holds the whole separator.
- `actions.dfy`, module `QrActions`: the class `QrScreen` holds the screen's
  state. Every platform call it makes is appended to an effect log:
  - opening a URL;
  - the permission request;
  - the file write, the asset and the album;
  - alerts, without their texts.

  The methods state the new log exactly. The object invariant `Valid` says that
  no storage write is in the log unless the permission is held.

## Model

| member | source | states |
|---|---|---|
| QrPayload.ClassifyTagOf | App.js:23-41 | each of the ten tags the selection screen stores maps back to its own category; `text` and `youtube` have no case of their own and reach the default branch |
| QrPayload.ClassifyOther | App.js:23-41 | `Classify` returns `Other` exactly when the tag is null or not one of the ten known tags; every other tag is the tag of the category it selects |
| QrPayload.WifiPayloadVerbatim | App.js:24-25 | the Wi-Fi payload is `WIFI:S:`, then the name, then `;T:WPA;P:`, then the password, then `;;`, with both values copied unescaped at fixed offsets |
| QrPayload.WifiInjective | App.js:24-25 | two Wi-Fi payloads are equal only if the names and the passwords are equal, provided neither name contains `;` |
| QrPayload.WifiAmbiguous | App.js:24-25 | without escaping, a name containing `;T:WPA;P:` gives the same payload as a different name/password pair |
| QrPayload.EmailPayloadVerbatim | App.js:26-27 | the email payload is `mailto:`, the address, `?body=` and the email message, all verbatim, so the SMS message plays no part |
| QrPayload.SmsPayloadVerbatim | App.js:28-29 | the sms payload is `sms:`, the number, `?body=` and the SMS message, all verbatim, so the email message plays no part |
| QrPayload.EmailInjective | App.js:26-27 | the email payload determines the address and the message when the address contains no `?` |
| QrPayload.SmsInjective | App.js:28-29 | the sms payload determines the number and the message when the number contains no `?` |
| QrPayload.EmailAmbiguous | App.js:26-27 | without percent-encoding, an address containing `?body=` collides with a shorter address and a longer message |
| QrPayload.WebsiteUrlShape | App.js:30-31 | the website result always starts with `http` and ends with the value; it equals the value exactly when the value starts with `http` (so `httpx` passes through too); otherwise it is `https://` followed by the value |
| QrPayload.WebsiteUrlIdempotent | App.js:30-31 | applying the website rule to its own result returns that result |
| QrPayload.LinkPayload | App.js:32-39 | the payload is exactly `tel:`, `https://www.snapchat.com/add/`, `https://www.facebook.com/` or `https://www.instagram.com/` (by category) followed by the value; the value is an exact suffix, and two payloads of one category are equal exactly when the values are |
| QrPayload.LinkPrefixesDistinct | App.js:32-39 | none of the four link prefixes begins with another of them (the three social-media prefixes share only their `https://www.` start) |
| QrPayload.LinkCategoriesNeverCollide | App.js:32-39 | two different link categories never give the same payload, whatever values are typed |
| QrPayload.PassThroughPayload | App.js:40-41 | text, youtube and the default branch return the value unchanged |
| QrPayload.UnknownTagPayload | App.js:22-43 | a null or unknown stored tag yields the value unchanged |
| QrPayload.DefaultBranch | App.js:23-41 | a stored tag reaches the switch's default branch exactly when it is null or none of the eight tags with a case (so `text` and `youtube` reach it too), and every such tag yields the value unchanged |
| QrPayload.PayloadReadsOnly | App.js:22-43 | the payload depends only on the category and the fields that category reads, and on no hidden state: forms that agree on those fields give the same string |
| QrPayload.EveryReadFieldMatters | App.js:22-43 | every field a branch reads reaches its payload: appending one character to it adds exactly one character to the payload (its length grows by one, so the payload changes), for website only when that character is not `h`, `t` or `p` |
| QrPayload.WebsiteExtensionShortens | App.js:30-31 | the website exception is real: `htt` gives an 11-character payload while `http` gives a 4-character one |
| QrPayload.PayloadExamples | App.js:22-43 | concrete payloads for Wi-Fi, website (with and without a scheme, and `httpx`), email, sms, phone, snapchat, facebook and instagram |
| QrActions.ExportEffects | App.js:54-61 | with no rendered code nothing is stored; otherwise exactly four calls: the image data is written to `qrcode.png` in the documents directory, an asset is created from that same path, the `Download` album takes that asset without copying it, and only after these three storage calls comes the success alert |
| QrActions.QrScreen.QrData | App.js:167 | the code on screen encodes the builder's payload for the tag the selection screen stored; with no known tag it encodes the value unchanged |
| QrActions.QrScreen.constructor | App.js:8-16 | a screen starts with no rendered code and an empty effect log |
| QrActions.QrScreen.GenerateQR | App.js:18-20 | after generation the code is rendered and the invariant still holds |
| QrActions.QrScreen.SendSms | App.js:65-75 | an empty number or message adds only the missing-field alert and opens nothing; otherwise exactly one URL is opened, equal to the builder's sms payload for the same fields, which on the sms screen is the code shown |
| QrActions.QrScreen.SendEmail | App.js:77-87 | an empty address or message adds only the missing-field alert and opens nothing; otherwise exactly one URL is opened, equal to the builder's email payload for the same fields, which on the email screen is the code shown |
| QrActions.QrScreen.SaveQrCode | App.js:45-63 | with permission held, no request is made and the export runs. A refused request adds only the request and the denial alert, with no write, asset or album. A granted request is followed by the export. No storage write is ever logged without permission |

## Left out

- Screen layout, hooks, text inputs and styles (App.js:89-234) are UI composition. The model takes the form fields as given when a button is pressed.
- The enablement of the Generate button (`disabled={!inputValue}`, App.js:164) is UI gating, not a rule of the builder.
- The QR matrix encoding of `react-native-qrcode-svg` is not modelled; that library is not part of this model. `toDataURL` becomes the `base64` parameter of `SaveQrCode`.
- Device storage calls are recorded as effects: `writeAsStringAsync` with its path and data, `createAssetAsync` with its path, and `createAlbumAsync` with the album name and the copy flag (`false`). Their outcomes are not modelled, and `documentDirectory` is a parameter. Two arguments are not recorded as the source passes them: the asset object that `createAlbumAsync` receives is identified by the file path it was created from, and the `{ encoding: Base64 }` option of `writeAsStringAsync` (App.js:57) is dropped, as every write the screen makes uses it.
- QrActions.QrScreen.SaveQrCode: does not model a failing write, asset or album call. The source has no `catch` around the callback, so such a failure ends the callback unhandled. The app shows no alert when a write fails.
- QrActions.QrScreen.SendSms: does not model the `.catch` of `Linking.openURL` and its "Unable to send" alert (App.js:72-74). Whether the platform can open a URI is outside the app.
- QrActions.QrScreen.SendEmail: same as above for App.js:84-86.
- The user's answer to the permission dialog is the `answer` parameter. Like the permission hook, the answer becomes the held permission state.
- Alert texts are dropped. Each alert is recorded by its kind only.
- Asynchrony (`await`, the `toDataURL` callback) is flattened into one ordered sequence of calls.
