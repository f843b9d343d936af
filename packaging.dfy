/**
 * The steps the linux build runs through helpers it does not define:
 * prepareIcon, fyneRelease and fynePackage. What they do inside the image is
 * not modelled; each records that it was called and answers with `reply`.
 */
module Packaging {
  import opened Results
  import opened BuildContext
  import opened Container

  method PrepareIcon(ctx: Context, image: ContainerImage, reply: Outcome) returns (err: Outcome)
    modifies image
    ensures image.env == old(image.env) && image.log == old(image.log) + [PrepareIconCall]
    ensures err == reply
  {
    image.log := image.log + [PrepareIconCall];
    err := reply;
  }

  method FyneRelease(ctx: Context, image: ContainerImage, reply: Outcome) returns (err: Outcome)
    modifies image
    ensures image.env == old(image.env) && image.log == old(image.log) + [ReleaseCall]
    ensures err == reply
  {
    image.log := image.log + [ReleaseCall];
    err := reply;
  }

  method FynePackage(ctx: Context, image: ContainerImage, reply: Outcome) returns (err: Outcome)
    modifies image
    ensures image.env == old(image.env) && image.log == old(image.log) + [PackageCall]
    ensures err == reply
  {
    image.log := image.log + [PackageCall];
    err := reply;
  }
}
