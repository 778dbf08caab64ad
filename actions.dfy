/**
 * The actions of the QR generator screen that reach outside the app: opening an
 * sms: or mailto: URI, and saving the rendered code to the gallery behind the
 * storage-permission gate. The platform calls are not modelled; each is
 * recorded, in order, in an effect log.
 */
module QrActions {
  import opened QrPayload

  /** The user-visible alerts, without their texts. */
  datatype Notice = MissingField | PermissionDenied | Saved

  /** A call the screen makes into the platform. */
  datatype Effect =
    | OpenUrl(url: string)
    | RequestPermission
    | WriteFile(path: string, base64: string)
    | CreateAsset(path: string)
    | CreateAlbum(album: string, assetPath: string, copyAsset: bool)
    | Alert(notice: Notice)

  /** The calls that put something into device storage. */
  predicate IsStorageWrite(e: Effect)
  {
    e.WriteFile? || e.CreateAsset? || e.CreateAlbum?
  }

  const QrFileName := "qrcode.png"
  const AlbumName := "Download"

  /** The calls that store the image once permission is held: nothing when no
      code has been rendered yet, otherwise the file write into the documents
      directory, its registration as a media asset, the album that takes it
      (moving the asset, not copying it), and the success alert. */
  function ExportEffects(rendered: bool, documentDirectory: string, base64: string): (es: seq<Effect>)
    ensures !rendered ==> es == []
    ensures rendered ==> |es| == 4 && es[0] == WriteFile(documentDirectory + QrFileName, base64)
    ensures rendered ==> es[1] == CreateAsset(es[0].path) && es[2] == CreateAlbum(AlbumName, es[0].path, false)
    ensures rendered ==> (forall i :: 0 <= i < 3 ==> IsStorageWrite(es[i])) && es[3] == Alert(Saved)
    ensures forall e :: e in es ==> IsStorageWrite(e) || e == Alert(Saved)
  {
    if rendered then
      var filename := documentDirectory + QrFileName;
      [WriteFile(filename, base64), CreateAsset(filename), CreateAlbum(AlbumName, filename, false), Alert(Saved)]
    else
      []
  }

  /** The screen at the moment one of its buttons is pressed. */
  class QrScreen {
    var inputType: Category
    var form: Form
    /** Whether the storage permission is held (a null permission response,
        while it is still loading, counts as not held). */
    var storageGranted: bool
    /** Whether the QR code has been rendered, so that its reference is set. */
    var qrRendered: bool
    /** Every platform call made so far, oldest first. */
    var effects: seq<Effect>

    /** Nothing has been written to storage unless the permission is held. */
    ghost predicate Valid()
      reads this
    {
      forall i :: 0 <= i < |effects| && IsStorageWrite(effects[i]) ==> storageGranted
    }

    constructor (inputType: Category, form: Form, storageGranted: bool)
      ensures Valid()
      ensures this.inputType == inputType && this.form == form
      ensures this.storageGranted == storageGranted
      ensures !qrRendered && effects == []
    {
      this.inputType := inputType;
      this.form := form;
      this.storageGranted := storageGranted;
      qrRendered := false;
      effects := [];
    }

    /** The payload the QR code on screen encodes: the builder applied to the
        tag the selection screen stored for the current category. */
    function QrData(): (r: string)
      reads this
      ensures inputType != Other ==> r == GetQRData(Some(TagOf(inputType)), form)
      ensures inputType == Other ==> r == form.inputValue
    {
      Payload(inputType, form)
    }

    /** generateQR: the code is rendered from now on; nothing else changes. */
    method GenerateQR()
      requires Valid()
      modifies this`qrRendered
      ensures Valid() && qrRendered
    {
      qrRendered := true;
    }

    /** sendSMS: with an empty number or an empty message only the alert is
        raised; otherwise the sms: URI is opened, and it is the very payload the
        builder makes for the sms category from the same fields. */
    method SendSms()
      requires Valid()
      modifies this`effects
      ensures Valid()
      ensures form.inputValue == "" || form.smsMessage == "" ==>
                effects == old(effects) + [Alert(MissingField)]
      ensures form.inputValue != "" && form.smsMessage != "" ==>
                effects == old(effects) + [OpenUrl(Payload(Sms, form))]
      ensures inputType == Sms && form.inputValue != "" && form.smsMessage != "" ==>
                effects == old(effects) + [OpenUrl(QrData())]
    {
      if form.inputValue == "" || form.smsMessage == "" {
        effects := effects + [Alert(MissingField)];
        return;
      }
      var smsUrl := "sms:" + form.inputValue + "?body=" + form.smsMessage;
      effects := effects + [OpenUrl(smsUrl)];
    }

    /** sendEmail: the same guard over the address and the email message; the
        URI opened is the builder's email payload for the same fields. */
    method SendEmail()
      requires Valid()
      modifies this`effects
      ensures Valid()
      ensures form.inputValue == "" || form.emailMessage == "" ==>
                effects == old(effects) + [Alert(MissingField)]
      ensures form.inputValue != "" && form.emailMessage != "" ==>
                effects == old(effects) + [OpenUrl(Payload(Email, form))]
      ensures inputType == Email && form.inputValue != "" && form.emailMessage != "" ==>
                effects == old(effects) + [OpenUrl(QrData())]
    {
      if form.inputValue == "" || form.emailMessage == "" {
        effects := effects + [Alert(MissingField)];
        return;
      }
      var emailUrl := "mailto:" + form.inputValue + "?body=" + form.emailMessage;
      effects := effects + [OpenUrl(emailUrl)];
    }

    /** saveQRCode. `answer` is what the user replies to the permission dialog,
        `documentDirectory` the app's documents directory and `base64` the image
        data the QR renderer hands back. With the permission already held no
        request is made; when the request is refused the denial alert is the
        only other call and nothing is written; otherwise the image is exported
        if a code has been rendered. */
    method SaveQrCode(answer: bool, documentDirectory: string, base64: string)
      requires Valid()
      modifies this`effects, this`storageGranted
      ensures Valid()
      ensures old(storageGranted) ==>
                storageGranted && effects == old(effects) + ExportEffects(qrRendered, documentDirectory, base64)
      ensures !old(storageGranted) && !answer ==>
                !storageGranted && effects == old(effects) + [RequestPermission, Alert(PermissionDenied)]
      ensures !old(storageGranted) && answer ==>
                storageGranted &&
                effects == old(effects) + [RequestPermission] + ExportEffects(qrRendered, documentDirectory, base64)
    {
      if !storageGranted {
        effects := effects + [RequestPermission];
        storageGranted := answer;
        if !answer {
          effects := effects + [Alert(PermissionDenied)];
          return;
        }
      }
      if qrRendered {
        var filename := documentDirectory + QrFileName;
        effects := effects + [WriteFile(filename, base64), CreateAsset(filename), CreateAlbum(AlbumName, filename, false), Alert(Saved)];
      }
    }
  }
}
